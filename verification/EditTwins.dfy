/**
 * The Compatibility V1 edits of a text whose last line has no terminator, compared with those of the same text with a
 * newline added: while no edit puts a line before the last one, the two differ in that newline only.
 */
module EditTwins {
  import opened Common
  import T = Toml
  import opened ConfigLines
  import opened Document
  import opened Tracking
  import opened Regions
  import opened BodyEdits
  import opened ConfigEdit
  import opened FeatureLines
  import opened FeaturePlan
  import opened FeatureRestore
  import opened RouteEdits
  import F = FeatureRegions
  import opened ConfigRoundTrip
  import opened Unterminated
  import InlineTable

  // ---- The three feature edits, apart from terminators ----

  datatype Edit = SetAt(at: nat, line: string) | PutAt(at: nat, line: string) | NewTable(name: string, line: string)

  predicate EditFits(s: Edit, n: nat) {
    (s.SetAt? ==> s.at < n) && (s.PutAt? ==> s.at <= n)
  }

  function Apply(d: Doc, s: Edit): (r: Doc)
    requires Valid(d) && EditFits(s, |d.lines|)
    ensures Valid(r)
  {
    match s
    case SetAt(i, line) => SetLine(d, i, line)
    case PutAt(i, line) => Insert(d, i, line)
    case NewTable(name, line) =>
      var t := AppendTable(d, name);
      Insert(t, |t.lines|, line)
  }

  function ApplyLines(lines: seq<string>, s: Edit): seq<string>
    requires EditFits(s, |lines|)
  {
    Apply(Plain(lines), s).lines
  }

  lemma {:induction false} ApplyIsLines(d: Doc, s: Edit)
    requires Valid(d) && EditFits(s, |d.lines|)
    ensures Apply(d, s).lines == ApplyLines(d.lines, s)
  {
    hide Header, IsBlank;
    var p := Plain(d.lines);
    match s {
      case SetAt(i, line) =>
      case PutAt(i, line) =>
        InsertSize(d, i, line);
        InsertSize(p, i, line);
      case NewTable(name, line) =>
        AppendSame(d, p, name);
        InsertSize(AppendTable(d, name), |AppendTable(d, name).lines|, line);
        InsertSize(AppendTable(p, name), |AppendTable(p, name).lines|, line);
    }
  }

  lemma {:induction false} AppendSame(d: Doc, e: Doc, name: string)
    requires Valid(d) && Valid(e) && d.lines == e.lines
    ensures AppendTable(d, name).lines == AppendTable(e, name).lines
      == d.lines + (if LastIsText(d.lines) then [""] else []) + [Header(name)]
  {
    hide Header, IsBlank, Insert;
    AppendsTable(d, name);
    AppendsTable(e, name);
  }

  lemma {:induction false} AppendsTable(d: Doc, name: string)
    requires Valid(d)
    ensures AppendTable(d, name).lines == d.lines + (if LastIsText(d.lines) then [""] else []) + [Header(name)]
  {
    hide Header, IsBlank;
    var spaced := if LastIsText(d.lines) then Insert(d, |d.lines|, "") else d;
    InsertSize(d, |d.lines|, "");
    InsertSize(spaced, |spaced.lines|, Header(name));
  }

  /** Does the edit put a line right before the last of `n` lines? */
  predicate MeetsLast(s: Edit, n: nat) {
    s.PutAt? && s.at + 1 == n
  }

  function EditOf(current: Option<Assignment>, end: Option<nat>, table: string, line: string): Edit {
    if current.Some? then SetAt(current.value.index, line)
    else if end.Some? then PutAt(end.value, line)
    else NewTable(table, line)
  }

  /** Where a table ends. */
  function TableEnd(lines: seq<string>, name: string): (end: Option<nat>)
    ensures end.Some? ==> end.value <= |lines|
  {
    match FindTable(lines, name)
    case Ok(Some(range)) => Some(range.end)
    case _ => None
  }

  /** Where a table ends but for blank lines. */
  function TableTextEnd(lines: seq<string>, name: string): (end: Option<nat>)
    ensures end.Some? ==> end.value <= |lines|
  {
    match FindTable(lines, name)
    case Ok(Some(range)) => Some(BeforeBlanks(lines, range.header + 1, range.end))
    case _ => None
  }

  function FeatureEdit(lines: seq<string>, key: string, line: string): (r: Result<Edit>)
    ensures r.Ok? ==> EditFits(r.value, |lines|)
  {
    var current :- BooleanIn(lines, FEATURES, key);
    Ok(EditOf(current.at, TableEnd(lines, FEATURES), FEATURES, line))
  }

  function V2Edit(lines: seq<string>, p: Previous, json: InlineTable.Json): (r: Result<Edit>)
    ensures r.Ok? ==> EditFits(r.value, |lines|)
  {
    if p.inline then
      var line :- ManagedV2Line(p, json);
      if p.at.None? || p.at.value.index >= |lines| then Err("inline table disappeared")
      else Ok(SetAt(p.at.value.index, line))
    else if p.v2Table then
      var current :- BooleanIn(lines, V2_TABLE, ENABLED);
      if current.at.None? && TableEnd(lines, V2_TABLE).None? then Err("missing table")
      else Ok(EditOf(current.at, TableEnd(lines, V2_TABLE), V2_TABLE, V2TableLine()))
    else FeatureEdit(lines, MULTI_AGENT_V2, V2Line())
  }

  function DepthEdit(lines: seq<string>, depth: nat): (r: Result<Edit>)
    ensures r.Ok? ==> EditFits(r.value, |lines|)
  {
    var current :- FindDepth(lines);
    Ok(EditOf(current.at, TableTextEnd(lines, AGENTS), AGENTS, DepthLine(depth)))
  }

  lemma {:induction false} TableNowhere(lines: seq<string>, name: string)
    requires FindTable(lines, name) == Ok(None)
    ensures forall i :: 0 <= i < |lines| ==> !IsTable(lines[i], name)
  {
    hide IsTable, FirstTable;
    var hits := seq(|lines|, i requires 0 <= i < |lines| => IsTable(lines[i], name));
    assert Headers(lines, name) == Where(hits);
    WhereNone(hits);
    assert forall i :: 0 <= i < |lines| ==> hits[i] == IsTable(lines[i], name);
  }

  lemma {:induction false} TableAtEnd(lines: seq<string>, name: string)
    requires lines != [] && IsTable(lines[|lines| - 1], name)
    requires forall i :: 0 <= i < |lines| - 1 ==> !IsTable(lines[i], name)
    ensures FindTable(lines, name) == Ok(Some(Range(|lines| - 1, |lines|)))
  {
    hide IsTable;
    var hits := seq(|lines|, i requires 0 <= i < |lines| => IsTable(lines[i], name));
    assert Headers(lines, name) == Where(hits);
    WhereOnly(hits, |lines| - 1);
    assert lines[|lines|..] == [];
  }

  /** A table just appended is found at the end. */
  lemma {:induction false} AppendedFound(d: Doc, name: string)
    requires Valid(d) && FindTable(d.lines, name) == Ok(None) && IsTable(Header(name), name) && !IsTable("", name)
    ensures var ls := AppendTable(d, name).lines; ls != [] && FindTable(ls, name) == Ok(Some(Range(|ls| - 1, |ls|)))
  {
    hide IsTable, IsBlank, Header, FindTable, AppendTable;
    AppendsTable(d, name);
    TableNowhere(d.lines, name);
    TableAtEnd(AppendTable(d, name).lines, name);
  }

  /** The same, wherever the edit of a feature comes from. */
  lemma {:induction false} SetFeatureIs(d: Doc, key: string, line: string)
    requires Valid(d)
    ensures SetFeature(d, key, line).Ok? <==> FeatureEdit(d.lines, key, line).Ok?
    ensures SetFeature(d, key, line).Ok? ==>
      SetFeature(d, key, line).value == Apply(d, FeatureEdit(d.lines, key, line).value)
  {
    hide BooleanIn, FindTable, AppendTable, Insert, IsTable;
    TablesRead();
    if FindTable(d.lines, FEATURES) == Ok(None) {
      AppendedFound(d, FEATURES);
    }
    BooleanTable(d.lines, FEATURES, key);
  }

  lemma {:induction false} TablesRead()
    ensures IsTable(Header(FEATURES), FEATURES) && !IsTable("", FEATURES)
    ensures IsTable(Header(AGENTS), AGENTS) && !IsTable("", AGENTS)
  {
    FeatureNames();
    HeaderReads(FEATURES);
    HeaderReads(AGENTS);
  }

  lemma {:induction false} BooleanTable(lines: seq<string>, table: string, key: string)
    ensures BooleanIn(lines, table, key).Ok? ==> FindTable(lines, table).Ok?
    ensures FindDepth(lines).Ok? ==> FindTable(lines, AGENTS).Ok?
    ensures BooleanIn(lines, table, key).Ok? && BooleanIn(lines, table, key).value.at.Some? ==>
      FindTable(lines, table).value.Some?
  {
    hide FindTable, Scalar, OnlyMatch;
  }

  lemma {:induction false} SetV2Is(d: Doc, p: Previous, json: InlineTable.Json)
    requires Valid(d)
    ensures SetV2(d, p, json).Ok? <==> V2Edit(d.lines, p, json).Ok?
    ensures SetV2(d, p, json).Ok? ==> SetV2(d, p, json).value == Apply(d, V2Edit(d.lines, p, json).value)
  {
    hide BooleanIn, FindTable, Insert, SetFeature, FeatureEdit, ManagedV2Line, V2TableLine;
    SetFeatureIs(d, MULTI_AGENT_V2, V2Line());
    BooleanTable(d.lines, V2_TABLE, ENABLED);
  }

  lemma {:induction false} SetDepthIs(d: Doc, depth: nat)
    requires Valid(d)
    ensures SetDepth(d, depth).Ok? <==> DepthEdit(d.lines, depth).Ok?
    ensures SetDepth(d, depth).Ok? ==> SetDepth(d, depth).value == Apply(d, DepthEdit(d.lines, depth).value)
  {
    hide FindDepth, FindTable, AppendTable, Insert, IsTable, DepthLine, IsBlank;
    TablesRead();
    BooleanTable(d.lines, AGENTS, MAX_DEPTH);
    if FindTable(d.lines, AGENTS) == Ok(None) {
      AppendedFound(d, AGENTS);
    }
  }

  datatype Edits = Edits(multiAgent: Edit, v2: Edit, depth: Edit, record: Features)

  /** The edits of a file and the record of what was there, from its lines. */
  function EditsOf(lines: seq<string>, json: InlineTable.Json): (r: Result<Edits>)
    ensures r.Ok? ==> EditFits(r.value.multiAgent, |lines|)
  {
    var multiAgent :- BooleanIn(lines, FEATURES, MULTI_AGENT);
    var v2 :- FindV2(lines, json);
    var depth :- FindDepth(lines);
    var s1 := EditOf(multiAgent.at, TableEnd(lines, FEATURES), FEATURES, MultiAgentLine());
    var l1 := ApplyLines(lines, s1);
    var s2 :- V2Edit(l1, v2, json);
    var s3 :- DepthEdit(ApplyLines(l1, s2), InstalledDepth(depth));
    Ok(Edits(s1, s2, s3, Features(
      multiAgent.(separator := !multiAgent.tablePresent && LastIsText(lines)), v2,
      depth.(separator := !depth.tablePresent && LastIsText(lines)), InstalledDepth(depth))))
  }

  /** The lines after one, two and three edits. */
  predicate EditsFit(lines: seq<string>, s: Edits) {
    && EditFits(s.multiAgent, |lines|)
    && EditFits(s.v2, |ApplyLines(lines, s.multiAgent)|)
    && EditFits(s.depth, |ApplyLines(ApplyLines(lines, s.multiAgent), s.v2)|)
  }

  function ApplyAll(d: Doc, s: Edits): (r: Doc)
    requires Valid(d) && EditsFit(d.lines, s)
    ensures Valid(r)
  {
    ApplyIsLines(d, s.multiAgent);
    var d1 := Apply(d, s.multiAgent);
    ApplyIsLines(d1, s.v2);
    Apply(Apply(d1, s.v2), s.depth)
  }

  lemma {:induction false} InstallFeaturesIs(d: Doc, json: InlineTable.Json)
    requires Valid(d)
    ensures InstallFeatures(d, json).Ok? <==> EditsOf(d.lines, json).Ok?
    ensures InstallFeatures(d, json).Ok? ==>
      var s := EditsOf(d.lines, json).value;
      EditsFit(d.lines, s) && InstallFeatures(d, json) == Ok((ApplyAll(d, s), s.record))
  {
    hide BooleanIn, FindV2, FindDepth, EditOf, TableEnd, V2Edit, DepthEdit, SetFeature, SetV2, SetDepth, Apply;
    hide ApplyLines, LastIsText, InstalledDepth, MultiAgentLine;
    SetFeatureIs(d, MULTI_AGENT, MultiAgentLine());
    if SetFeature(d, MULTI_AGENT, MultiAgentLine()).Ok? && FindV2(d.lines, json).Ok? && FindDepth(d.lines).Ok? {
      var s1, d1 := FeatureEdit(d.lines, MULTI_AGENT, MultiAgentLine()).value,
          SetFeature(d, MULTI_AGENT, MultiAgentLine()).value;
      var v2 := FindV2(d.lines, json).value;
      ApplyIsLines(d, s1);
      SetV2Is(d1, v2, json);
      if SetV2(d1, v2, json).Ok? {
        ApplyIsLines(d1, V2Edit(d1.lines, v2, json).value);
        SetDepthIs(SetV2(d1, v2, json).value, InstalledDepth(FindDepth(d.lines).value));
      }
    }
  }

  // ---- Twins ----

  lemma {:induction false} TwinsApply(d: Doc, e: Doc, s: Edit)
    requires Twins(d, e) && Terminators(e) && EditFits(s, |d.lines|) && !MeetsLast(s, |d.lines|)
    ensures Valid(d) && Valid(e) && |e.lines| == |d.lines|
    ensures Twins(Apply(d, s), Apply(e, s)) && Terminators(Apply(e, s))
  {
    hide Twins, Terminators, Insert, Header, IsBlank;
    TwinsSame(d, e);
    match s {
      case SetAt(i, line) =>
        TwinsSet(d, e, i, line);
        SetTerminators(e, i, line);
      case PutAt(i, line) => TwinsInsert(d, e, i, line);
      case NewTable(name, line) =>
        TwinsInsert(d, e, |d.lines|, "");
        var d1 := if LastIsText(d.lines) then Insert(d, |d.lines|, "") else d;
        var e1 := if LastIsText(d.lines) then Insert(e, |e.lines|, "") else e;
        TwinsSame(d1, e1);
        TwinsInsert(d1, e1, |d1.lines|, Header(name));
        var d2, e2 := Insert(d1, |d1.lines|, Header(name)), Insert(e1, |e1.lines|, Header(name));
        TwinsSame(d2, e2);
        TwinsInsert(d2, e2, |d2.lines|, line);
    }
  }

  /** A feature puts a line right before the last one. */
  predicate SomeMeetsLast(lines: seq<string>, s: Edits)
    requires EditsFit(lines, s)
  {
    var l1 := ApplyLines(lines, s.multiAgent);
    MeetsLast(s.multiAgent, |lines|) || MeetsLast(s.v2, |l1|) || MeetsLast(s.depth, |ApplyLines(l1, s.v2)|)
  }

  lemma {:induction false} TwinsApplyAll(d: Doc, e: Doc, s: Edits)
    requires Twins(d, e) && Terminators(e) && EditsFit(d.lines, s) && !SomeMeetsLast(d.lines, s)
    ensures Valid(d) && Valid(e) && EditsFit(e.lines, s) && Twins(ApplyAll(d, s), ApplyAll(e, s))
  {
    hide Twins, Terminators, Apply, ApplyLines;
    TwinsSame(d, e);
    TwinsApply(d, e, s.multiAgent);
    var d1, e1 := Apply(d, s.multiAgent), Apply(e, s.multiAgent);
    ApplyIsLines(d, s.multiAgent);
    TwinsSame(d1, e1);
    TwinsApply(d1, e1, s.v2);
    var d2, e2 := Apply(d1, s.v2), Apply(e1, s.v2);
    ApplyIsLines(d1, s.v2);
    TwinsSame(d2, e2);
    TwinsApply(d2, e2, s.depth);
  }

  // ---- Restoring twins ----

  lemma {:induction false} TwinsEmptyTable(d: Doc, e: Doc, name: string, separator: bool)
    requires Twins(d, e) && Valid(e) && RemoveEmptyTable(e, name, separator).Ok?
      && RemoveEmptyTable(e, name, separator).value.lines != []
    ensures Valid(d) && RemoveEmptyTable(d, name, separator).Ok?
    ensures Twins(RemoveEmptyTable(d, name, separator).value, RemoveEmptyTable(e, name, separator).value)
  {
    hide Twins, FindTable, Remove, HasText;
    TwinsSame(d, e);
    var table := FindTable(e.lines, name).value.value;
    if !HasText(e.lines[table.header + 1..table.end]) {
      var h := table.header;
      RemoveSize(e, h);
      var e1 := Remove(e, h);
      if separator && h > 0 && e1.lines[h - 1] == "" {
        RemoveSize(e1, h - 1);
      }
      TwinsRemove(d, e, h);
      var d1 := Remove(d, h);
      TwinsSame(d1, e1);
      if separator && h > 0 && e1.lines[h - 1] == "" {
        TwinsRemove(d1, e1, h - 1);
      }
    }
  }

  lemma {:induction false} NeverLonger(d: Doc, name: string, separator: bool)
    requires Valid(d) && RemoveEmptyTable(d, name, separator).Ok?
    ensures |RemoveEmptyTable(d, name, separator).value.lines| <= |d.lines|
  {
    hide FindTable, Remove, HasText;
    var table := FindTable(d.lines, name).value.value;
    RemoveSize(d, table.header);
    var d1 := Remove(d, table.header);
    if table.header > 0 {
      RemoveSize(d1, table.header - 1);
    }
  }

  lemma {:induction false} TwinsRestoreAt(d: Doc, e: Doc, i: nat, p: Previous, table: string)
    requires Twins(d, e) && Valid(e) && i < |e.lines| && RestoreAt(e, i, p, table).Ok?
      && RestoreAt(e, i, p, table).value.lines != []
    ensures Valid(d) && i < |d.lines| && RestoreAt(d, i, p, table).Ok?
    ensures Twins(RestoreAt(d, i, p, table).value, RestoreAt(e, i, p, table).value)
  {
    hide Twins, PutBack, RemoveEmptyTable;
    TwinsSame(d, e);
    if p.at.None? && !p.tablePresent {
      NeverLonger(PutBack(e, i, p.at), table, p.separator);
    }
    TwinsPutBack(d, e, i, p.at);
    if p.at.None? && !p.tablePresent {
      TwinsEmptyTable(PutBack(d, i, p.at), PutBack(e, i, p.at), table, p.separator);
    }
  }

  lemma {:induction false} TwinsRestoreFeature(d: Doc, e: Doc, key: string, value: string, line: string, p: Previous)
    requires Twins(d, e) && Valid(e) && RestoreFeature(e, key, value, line, p).Ok?
      && RestoreFeature(e, key, value, line, p).value.lines != []
    ensures Valid(d) && RestoreFeature(d, key, value, line, p).Ok?
    ensures Twins(RestoreFeature(d, key, value, line, p).value, RestoreFeature(e, key, value, line, p).value)
  {
    hide Twins, RestoreAt, BooleanIn, VerifyFeature;
    TwinsSame(d, e);
    TwinsRestoreAt(d, e, BooleanIn(e.lines, FEATURES, key).value.at.value.index, p, FEATURES);
  }

  lemma {:induction false} TwinsRestoreDepth(d: Doc, e: Doc, p: Previous, depth: nat)
    requires Twins(d, e) && Valid(e) && RestoreDepth(e, p, depth).Ok? && RestoreDepth(e, p, depth).value.lines != []
    ensures Valid(d) && RestoreDepth(d, p, depth).Ok?
    ensures Twins(RestoreDepth(d, p, depth).value, RestoreDepth(e, p, depth).value)
  {
    hide Twins, RestoreAt, FindDepth, VerifyDepth;
    TwinsSame(d, e);
    TwinsRestoreAt(d, e, FindDepth(e.lines).value.at.value.index, p, AGENTS);
  }

  lemma {:induction false} TwinsRestoreV2(d: Doc, e: Doc, p: Previous, json: InlineTable.Json)
    requires Twins(d, e) && Valid(e) && RestoreV2(e, p, json).Ok? && RestoreV2(e, p, json).value.lines != []
    ensures Valid(d) && RestoreV2(d, p, json).Ok?
    ensures Twins(RestoreV2(d, p, json).value, RestoreV2(e, p, json).value)
  {
    hide Twins, RestoreFeature, FindV2, VerifyV2, BooleanIn, PutBack, V2Line;
    TwinsSame(d, e);
    if p.inline {
      TwinsSet(d, e, FindV2(e.lines, json).value.at.value.index, p.at.value.line);
    } else if !p.v2Table {
      TwinsRestoreFeature(d, e, MULTI_AGENT_V2, "false", V2Line(), p);
    } else {
      TwinsPutBack(d, e, BooleanIn(e.lines, V2_TABLE, ENABLED).value.at.value.index, p.at);
    }
  }

  // ---- The last line stays visible ----

  predicate SeenLast(ts: seq<TLine>) {
    ts != [] && ts[|ts| - 1].line != ""
  }

  lemma {:induction false} SeenAfterPut(rs: seq<Region>, k: nat, at: Option<nat>, j: nat, line: string)
    requires k < |rs| && (at.Some? ==> at.value < |rs[k].body|) && (at.None? ==> j <= |rs[k].body|)
    requires SeenLast(Flat(rs)) && line != ""
    ensures SeenLast(Flat(WithBody(rs, k, PutIn(rs[k].body, at, j, line))))
  {
    hide Flat;
    FlatAround(rs, k);
    FlatWithBody(rs, k, PutIn(rs[k].body, at, j, line));
  }

  lemma {:induction false} SeenNewTable(rs: seq<Region>, name: string, line: string)
    requires line != ""
    ensures SeenLast(Flat(rs + [F.NewTable(name, [line])]))
  {
    hide Flat, Header;
    FlatSnoc(rs, F.NewTable(name, [line]));
  }

  lemma {:induction false} LinesSeen(depth: nat)
    ensures MultiAgentLine() != "" && DepthLine(depth) != "" && V2Line() != "" && V2TableLine() != ""
  {
    ManagedSeen(MULTI_AGENT, "true", MULTI_AGENT_NOTE);
    ManagedSeen(MULTI_AGENT_V2, "false", V2_NOTE);
    ManagedSeen(ENABLED, "false", V2_NOTE);
    ManagedSeen(MAX_DEPTH, Decimal(depth), DEPTH_NOTE);
  }

  lemma {:induction false} ManagedSeen(key: string, value: string, note: string)
    ensures |ManagedLine(key, value, note)| >= 3
  {
  }

  lemma {:induction false} SeenDepth(rs: seq<Region>, p: F.Plan, line: string)
    requires rs != [] && (p.agents.Some? ==> p.agents.value < |rs|)
    requires p.agents.Some? && p.depth.Some? ==> p.depth.value < |rs[p.agents.value].body|
    requires p.agents.Some? && p.depth.None? ==> p.slot <= |rs[p.agents.value].body|
    requires line != "" && SeenLast(Flat(rs))
    ensures SeenLast(Flat(F.PutDepth(rs, p, line)))
  {
    hide Flat, Only, Absent, Place;
    if p.agents.Some? {
      SeenAfterPut(rs, p.agents.value, p.depth, p.slot, line);
    } else {
      SeenNewTable(F.Gapped(rs, p.agentsGap), AGENTS, line);
    }
  }

  lemma {:induction false} SeenMultiAgent(rs: seq<Region>, p: F.Plan)
    requires rs != [] && (p.features.Some? ==> p.features.value < |rs|)
    requires p.features.Some? && p.multiAgent.Some? ==> p.multiAgent.value < |rs[p.features.value].body|
    requires SeenLast(Flat(rs))
    ensures SeenLast(Flat(F.PutMultiAgent(rs, p)))
  {
    hide Flat, MultiAgentLine;
    LinesSeen(0);
    if p.features.Some? {
      var k := p.features.value;
      SeenAfterPut(rs, k, p.multiAgent, |rs[k].body|, MultiAgentLine());
    } else {
      SeenNewTable(F.Gapped(rs, p.featuresGap), FEATURES, MultiAgentLine());
    }
  }

  /** With a visible last line in the original, every document on the way back ends in one. */
  lemma {:induction false} StepsSeen(s: Steps, rs: seq<Region>, d0: Doc, fp: F.Plan, f: Features, v2Line: string,
          textBefore: bool)
    requires StepsAt(s, rs, d0, fp, f, v2Line, textBefore) && SeenLast(Flat(rs))
    ensures EndsVisibly(s.first) && EndsVisibly(s.second) && EndsVisibly(s.third)
  {
    hide Flat, F.PutMultiAgent, F.Describes, MultiAgentLine, DepthLine, SeenLast, F.PutDepth, Tracks;
    hide Only, Absent, Place, WellFormed, Clean, EndsVisibly;
    LinesSeen(f.installedDepth);
    SeenMultiAgent(rs, fp);
    var rs1, k := F.PutMultiAgent(rs, fp), F.V2Region(rs, fp);
    SeenAfterPut(rs1, k, fp.v2.at, |rs1[k].body|, v2Line);
    SeenDepth(rs1, fp, DepthLine(f.installedDepth));
    SeenDepth(rs, fp, DepthLine(f.installedDepth));
    SeenDepth(F.PutV2(rs1, k, fp.v2.at, v2Line), fp, DepthLine(f.installedDepth));
    SeenAt(s.first, Installed(rs, fp, v2Line, DepthLine(f.installedDepth)), d0);
    SeenAt(s.second, WithDepth(rs1, fp, f.installedDepth), d0);
    SeenAt(s.third, WithDepth(rs, fp, f.installedDepth), d0);
  }

  lemma {:induction false} SeenAt(d: Doc, rs: seq<Region>, d0: Doc)
    requires At(d, rs, d0) && SeenLast(Flat(rs))
    ensures EndsVisibly(d)
  {
    hide Flat, Tracks, WellFormed;
    AtLines(d, rs, d0);
  }

  // ---- Where no line is put before the last one ----

  predicate AllVisible(s: Steps) {
    EndsVisibly(s.first) && EndsVisibly(s.second) && EndsVisibly(s.third) && s.last.lines != []
  }

  ghost predicate AllClean(s: Steps) {
    Clean(s.installed) && Clean(s.first) && Clean(s.second) && Clean(s.third)
  }

  lemma {:induction false} TwinVisible(d: Doc, e: Doc)
    requires Twins(d, e) && EndsVisibly(e) && Clean(e)
    ensures d.lines == e.lines && EndsVisibly(d) && Valid(d) && Parse(Render(d)) == d
      && SplitLines(Render(d)) == d.lines
  {
    hide Clean, Parse, Render, SplitLines;
    TwinReadsBack(d, e);
  }

  /** Restoring does the same to a twin of the installed document, step by step. */
  lemma {:induction false} TwinGoesBack(x: Doc, s: Steps, before: RouteBefore, f: Features, url: string, c: Codec)
    returns (last: Doc)
    requires Twins(x, s.installed) && StepsDown(s, before, f, c) && AllClean(s) && AllVisible(s)
    requires EndsVisibly(s.installed)
    requires VerifyInstalledRoute(s.installed.lines, Journal(true, url, before, Some(f)), c) == Ok(())
    ensures SplitLines(Render(x)) == s.installed.lines && Twins(last, s.last)
    ensures Restore(Render(x), Journal(true, url, before, Some(f)), c) == Ok(Render(last))
  {
    hide Twins, Clean, Parse, Render, SplitLines, RestoreRoute, RestoreV2, RestoreFeature, RestoreDepth, EndsVisibly;
    hide VerifyInstalledRoute, Restore, MultiAgentLine;
    VisibleLines(s);
    TwinVisible(x, s.installed);
    TwinsRestore(x, s.installed, before, c);
    var x1 := RestoreRoute(x, before, c).value;
    TwinVisible(x1, s.first);
    TwinsRestoreV2(x1, s.first, f.v2, c.json);
    var x2 := RestoreV2(x1, f.v2, c.json).value;
    TwinVisible(x2, s.second);
    TwinsRestoreFeature(x2, s.second, MULTI_AGENT, "true", MultiAgentLine(), f.multiAgent);
    var x3 := RestoreFeature(x2, MULTI_AGENT, "true", MultiAgentLine(), f.multiAgent).value;
    TwinVisible(x3, s.third);
    TwinsRestoreDepth(x3, s.third, f.depth, f.installedDepth);
    last := RestoreDepth(x3, f.depth, f.installedDepth).value;
    TwinsSame(last, s.last);
    RestoreIs(x, x1, x2, x3, last, before, f, url, c);
  }

  lemma {:induction false} VisibleLines(s: Steps)
    requires AllVisible(s)
    ensures s.first.lines != [] && s.second.lines != [] && s.third.lines != [] && s.last.lines != []
  {
  }

  /** The routed text and its completion, with the edits that follow. */
  ghost predicate Routing(text: string, x: Doc, y: Doc, before: RouteBefore, url: string, replace: bool,
          replaceRealtime: bool, c: Codec) {
    && Valid(x) && Valid(y) && Clean(y) && EndsVisibly(y) && x.lines == y.lines
    && Parse(Render(y)) == y && EndsVisibly(Parse(text + "\n"))
    && InstallRoute(Parse(text), url, replace, replaceRealtime, c) == Ok((x, before))
    && InstallRoute(Parse(text + "\n"), url, replace, replaceRealtime, c) == Ok((y, before))
    && Terminated(text + "\n") && NoMarkers(SplitLines(text + "\n")) && QuotedWell(c, url)
    && QuotedWell(c, REALTIME_URL)
  }

  lemma {:induction false} RoutingOf(text: string, d: Doc, e: Doc, k: Spots, url: string, replace: bool,
          replaceRealtime: bool, c: Codec)
    returns (x: Doc, y: Doc, before: RouteBefore)
    requires Setting(text, d, e, k, url, replace, replaceRealtime, c)
    ensures Routing(text, x, y, before, url, replace, replaceRealtime, c)
    ensures InRange(k, |d.lines|) && Valid(d) && Valid(e) && |d.lines| == |e.lines|
    ensures x == Routed(d, k, url, c) && y == Routed(e, k, url, c)
    ensures !BeforeLast(k, |d.lines|) ==> Twins(x, y)
  {
    hide Parse, Render, SplitLines, NoMarkers, QuotedWell, Places, RouteAllowed, OpenEnded, NoLoneReturn, Clean;
    hide Terminated, Routed, Twins, InstallRoute, FindTop, ReadRoute, BeforeLast, EndsVisibly;
    TwinsSame(d, e);
    CompletedIsTerminated(text);
    InstallRouteIs(d, k, url, replace, replaceRealtime, c);
    InstallRouteIs(e, k, url, replace, replaceRealtime, c);
    x, y := Routed(d, k, url, c), Routed(e, k, url, c);
    before := InstallRoute(d, url, replace, replaceRealtime, c).value.1;
    RoutedIsClean(text + "\n", e, k, url, replace, replaceRealtime, c);
    RoutedLines(d, e, k, url, c);
    EndsVisiblyIs(e);
    LastRoutedLine(e, k, url, c);
    SplitLinesAgree(text + "\n");
    RenderReadsBack(y);
    if !BeforeLast(k, |d.lines|) {
      TwinsRouted(d, e, k, url, c);
    }
  }

  lemma {:induction false} EndsVisiblyIs(d: Doc)
    ensures d.lines != [] && d.lines[|d.lines| - 1] != "" ==> EndsVisibly(d)
  {
  }

  lemma {:induction false} InstallBoth(text: string, x: Doc, before: RouteBefore, url: string, replace: bool,
          replaceRealtime: bool, c: Codec)
    requires Valid(x) && InstallRoute(Parse(text), url, replace, replaceRealtime, c) == Ok((x, before))
    requires Parse(Render(x)) == x
    ensures Install(text, url, true, replace, replaceRealtime, c).Ok? <==> EditsOf(x.lines, c.json).Ok?
    ensures EditsOf(x.lines, c.json).Ok? ==>
      var s := EditsOf(x.lines, c.json).value;
      EditsFit(x.lines, s) && Install(text, url, true, replace, replaceRealtime, c)
        == Ok((Render(ApplyAll(x, s)), Journal(true, url, before, Some(s.record))))
  {
    hide Parse, Render, InstallRoute, InstallFeatures, EditsOf, EditsFit;
    InstallFeaturesIs(x, c.json);
  }

  /** Restoring leaves what restoring the completed text does, but for the last newline. */
  ghost predicate ComesBackTo(installed: string, record: Features, before: RouteBefore, e: Course, last: Doc,
          url: string, c: Codec) {
    var j := Journal(true, url, before, Some(record));
    && VerifyInstalledRoute(SplitLines(installed), j, c) == Ok(())
    && Twins(last, e.steps.last) && Restore(installed, j, c) == Ok(Render(last))
  }

  lemma {:induction false} CourseVisible(text: string, e: Course, url: string, replace: bool, replaceRealtime: bool,
          c: Codec)
    requires Follows(e, text, url, replace, replaceRealtime, c) && EndsVisibly(Parse(text))
    ensures AllClean(e.steps) && AllVisible(e.steps) && StepsDown(e.steps, e.before, e.f, c)
  {
    hide Parse, Render, SplitLines, InstallRoute, InstallFeatures, Install, Restore, VerifyInstalledRoute, LeavesGap;
    hide At, WellFormed, Flat, Clean, LastIsText, StepsDown, StepsAt, EndsVisibly, F.PutMultiAgent, Installed;
    hide DepthFits, InstalledFits, Ready;
    var d0, s, text' := Parse(text), e.steps, LastIsText(e.routed.lines);
    StepsMean(s, e.rs, d0, e.fp, e.before, e.f, e.v2Line, text', c);
    KeptSeen(d0);
    StepsSeen(s, e.rs, d0, e.fp, e.f, e.v2Line, text');
    AtIsClean(s.first, Installed(e.rs, e.fp, e.v2Line, DepthLine(e.f.installedDepth)), d0);
    DepthBoundsOf(e.rs, e.fp);
    AtIsClean(s.second, WithDepth(F.PutMultiAgent(e.rs, e.fp), e.fp, e.f.installedDepth), d0);
    AtIsClean(s.third, WithDepth(e.rs, e.fp, e.f.installedDepth), d0);
    NeverEmpty(s.last, e.rs, e.fp.agents.None? && e.fp.agentsGap && !text', d0);
  }

  lemma {:induction false} DepthBoundsOf(rs: seq<Region>, p: F.Plan)
    requires Ready(rs, p) && DepthFits(rs, p)
    ensures InstalledFits(rs, p) && rs != [] && (p.agents.Some? ==> p.agents.value < |rs|)
    ensures p.agents.Some? && p.depth.Some? ==> p.depth.value < |rs[p.agents.value].body|
    ensures p.agents.Some? && p.depth.None? ==> p.slot <= |rs[p.agents.value].body|
    ensures p.features.Some? ==> p.features.value < |rs|
    ensures p.features.Some? && p.multiAgent.Some? ==> p.multiAgent.value < |rs[p.features.value].body|
    ensures var rs1 := F.PutMultiAgent(rs, p);
      && rs1 != [] && (p.agents.Some? ==> p.agents.value < |rs1|)
      && (p.agents.Some? && p.depth.Some? ==> p.depth.value < |rs1[p.agents.value].body|)
      && (p.agents.Some? && p.depth.None? ==> p.slot <= |rs1[p.agents.value].body|)
  {
    hide F.PutMultiAgent, F.Describes, Only, Absent, Place;
  }

  lemma {:induction false} KeptSeen(d: Doc)
    requires EndsVisibly(d)
    ensures SeenLast(Kept(d.lines))
  {
  }

  lemma {:induction false} NeverEmpty(d: Doc, rs: seq<Region>, gap: bool, d0: Doc)
    requires rs != [] && At(d, F.Gapped(rs, gap), d0) && Flat(rs) == Kept(d0.lines) && EndsVisibly(d0)
    ensures d.lines != []
  {
    hide At, Flat;
    if gap {
      GapKept(d, rs, d0);
    } else {
      End(d, rs, d0);
    }
  }

  lemma {:induction false} AppliedVisible(y: Doc, s: Edits, json: InlineTable.Json)
    requires Valid(y) && EndsVisibly(y) && EditsOf(y.lines, json) == Ok(s) && EditsFit(y.lines, s)
    ensures EndsVisibly(ApplyAll(y, s))
  {
    hide EndsVisibly, Apply, ApplyLines, EditsOf;
    EditLines(y.lines, s, json);
    ApplyIsLines(y, s.multiAgent);
    StaysVisible(y, s.multiAgent);
    var y1 := Apply(y, s.multiAgent);
    ApplyIsLines(y1, s.v2);
    StaysVisible(y1, s.v2);
    StaysVisible(Apply(y1, s.v2), s.depth);
  }

  lemma {:induction false} StaysVisible(d: Doc, s: Edit)
    requires Valid(d) && EndsVisibly(d) && EditFits(s, |d.lines|) && s.line != ""
    ensures EndsVisibly(Apply(d, s))
  {
    hide Insert, AppendTable;
    match s {
      case SetAt(i, line) => StillEndsVisibly(d, i, line);
      case PutAt(i, line) => StillEndsVisibly(d, i, line);
      case NewTable(name, line) => InsertSize(AppendTable(d, name), |AppendTable(d, name).lines|, line);
    }
  }

  /** The lines the three edits write. */
  lemma {:induction false} EditLines(lines: seq<string>, s: Edits, json: InlineTable.Json)
    requires EditsOf(lines, json) == Ok(s)
    ensures s.multiAgent.line == MultiAgentLine() && s.depth.line == DepthLine(s.record.installedDepth)
    ensures ManagedV2Line(s.record.v2, json) == Ok(s.v2.line)
    ensures s.multiAgent.line != "" && s.v2.line != "" && s.depth.line != ""
  {
    hide BooleanIn, FindV2, FindDepth, TableEnd, TableTextEnd, ApplyLines, MultiAgentLine, DepthLine, V2Line;
    hide V2TableLine, ManagedV2Line, LastIsText;
    LinesSeen(s.record.installedDepth);
    ManagedIs(s.record.v2, json);
  }

  lemma {:induction false} ManagedIs(p: Previous, json: InlineTable.Json)
    ensures !p.inline ==> ManagedV2Line(p, json) == Ok(if p.v2Table then V2TableLine() else V2Line())
    ensures ManagedV2Line(p, json).Ok? ==> ManagedV2Line(p, json).value != ""
  {
    hide AfterEquals, InlineTable.Parse, InlineTable.Managed, T.TrimStart, V2Line, V2TableLine;
    LinesSeen(0);
    if p.inline && ManagedV2Line(p, json).Ok? {
      var line := p.at.value.line;
      AfterEqualsShorter(line, MULTI_AGENT_V2);
      T.TrimStartSplits(AfterEquals(line, MULTI_AGENT_V2).value);
    }
  }

  lemma {:induction false} AfterEqualsShorter(line: string, key: string)
    requires AfterEquals(line, key).Some?
    ensures |AfterEquals(line, key).value| < |line|
  {
    T.TrimStartSplits(line);
    T.TrimStartSplits(T.TrimStart(line)[|key|..]);
  }

  lemma {:induction false} CleanReads(d: Doc)
    requires Clean(d)
    ensures Valid(d) && Parse(Render(d)) == d && SplitLines(Render(d)) == d.lines
  {
    hide Parse, Render, SplitLines;
    RenderReadsBack(d);
    SplitLinesAgree(Render(d));
  }

  lemma {:induction false} FeaturesComeBack(text: string, x: Doc, y: Doc, before: RouteBefore, url: string,
          replace: bool, replaceRealtime: bool, c: Codec)
    returns (e: Course, last: Doc)
    requires Routing(text, x, y, before, url, replace, replaceRealtime, c) && Twins(x, y)
    requires EditsOf(x.lines, c.json).Ok? && EditsFit(x.lines, EditsOf(x.lines, c.json).value)
    requires !SomeMeetsLast(x.lines, EditsOf(x.lines, c.json).value)
    ensures Follows(e, text + "\n", url, replace, replaceRealtime, c) && e.routed == y
    ensures Valid(x)
    ensures ComesBackTo(Render(ApplyAll(x, EditsOf(x.lines, c.json).value)), EditsOf(x.lines, c.json).value.record,
      before, e, last, url, c)
  {
    hide Parse, Render, SplitLines, NoMarkers, QuotedWell, Clean, Terminated, Twins, InstallRoute, EditsOf, EditsFit;
    hide SomeMeetsLast, VerifyInstalledRoute, Restore, EndsVisibly, Install, InstallFeatures, LeavesGap, At, Flat;
    hide WellFormed, LastIsText, StepsDown, StepsAt, Kept;
    var s := EditsOf(x.lines, c.json).value;
    InstallBoth(text + "\n", y, before, url, replace, replaceRealtime, c);
    e := CourseOf(text + "\n", url, replace, replaceRealtime, c);
    assert e.routed == y && e.before == before;
    InstallFeaturesIs(y, c.json);
    assert e.f == s.record && e.steps.installed == ApplyAll(y, s);
    CleanTerminators(y);
    TwinsApplyAll(x, y, s);
    CourseVisible(text + "\n", e, url, replace, replaceRealtime, c);
    AppliedVisible(y, s, c.json);
    CleanReads(e.steps.installed);
    last := TwinGoesBack(ApplyAll(x, s), e.steps, before, s.record, url, c);
  }

  // ---- The text that comes back ----

  lemma {:induction false} BodyRendersWith(lines: seq<string>, a: seq<string>, t: string)
    requires |lines| == |a| > 0 && a[|a| - 1] == ""
    ensures RenderBody(lines, a[|a| - 1 := t]) == RenderBody(lines, a) + t
  {
    var b := a[|a| - 1 := t];
    RenderStep(lines, a);
    RenderStep(lines, b);
    if |lines| == 1 {
      EmptyRenders();
      assert lines[1..] == [] && a[1..] == [] && b[1..] == [];
    } else {
      BodyRendersWith(lines[1..], a[1..], t);
      assert b[1..] == a[1..][|a| - 2 := t];
    }
  }

  lemma {:induction false} EmptyLineRenders(lines: seq<string>, es: seq<string>)
    requires |lines| == |es|
    ensures RenderBody(lines + [""], es + [""]) == RenderBody(lines, es)
  {
    RenderStep(lines + [""], es + [""]);
    if lines == [] {
      EmptyRenders();
      assert [""][1..] == [];
    } else {
      RenderStep(lines, es);
      EmptyLineRenders(lines[1..], es[1..]);
      assert (lines + [""])[1..] == lines[1..] + [""] && (es + [""])[1..] == es[1..] + [""];
    }
  }

  /** The gap left in the completed text is one terminator more in the text itself. */
  lemma {:induction false} GapRenders(last: Doc, y: Doc, rs: seq<Region>, d: Doc, e: Doc) returns (b: string)
    requires rs != [] && At(y, F.Gapped(rs, true), e) && Flat(rs) == Kept(e.lines) && Twins(last, y) && Twins(d, e)
    ensures IsTerminator(b) && Render(last) == Render(d) + b
  {
    hide IsTerminator, Flat, WellFormed, RenderBody;
    GapKept(y, rs, e);
    var n := |e.lines|;
    GapEndings(y, rs, e);
    b := y.endings[n - 1];
    assert last.endings == y.endings[..n] + [""];
    assert d.endings[n - 1 := b] == y.endings[..n];
    EmptyLineRenders(e.lines, y.endings[..n]);
    BodyRendersWith(e.lines, d.endings, b);
  }

  lemma {:induction false} GapEndings(y: Doc, rs: seq<Region>, e: Doc)
    requires rs != [] && At(y, F.Gapped(rs, true), e) && Flat(rs) == Kept(e.lines) && Valid(e) && e.lines != []
    ensures |y.endings| == |e.endings| + 1 && IsTerminator(y.endings[|e.endings| - 1])
    ensures forall i :: 0 <= i < |e.endings| - 1 ==> y.endings[i] == e.endings[i]
  {
    hide IsTerminator, WellFormed, Unbroken, FrontOk, Flat, KeptEndings;
    GappedFlat(rs);
    var ts := Kept(e.lines) + [Own("")];
    assert Flat(F.Gapped(rs, true)) == ts;
    KeptThenOwn(e.lines, y.endings);
  }

  lemma {:induction false} GappedFlat(rs: seq<Region>)
    requires rs != []
    ensures Flat(F.Gapped(rs, true)) == Flat(rs) + [Own("")]
  {
    hide Flat;
    FlatAround(rs, |rs| - 1);
    FlatWithBody(rs, |rs| - 1, rs[|rs| - 1].body + [Own("")]);
    NothingAfter(rs);
    GrowInside(Flat(rs[..|rs| - 1]), rs[|rs| - 1].head, rs[|rs| - 1].body, Own(""));
  }

  lemma {:induction false} KeptThenOwn(lines: seq<string>, endings: seq<string>)
    requires |endings| == |lines| + 1
    ensures KeptEndings(Kept(lines) + [Own("")], endings) == endings[..|lines|]
  {
    KeptOrigs(lines, endings[..|lines|]);
    assert (Kept(lines) + [Own("")])[..|lines|] == Kept(lines);
  }

  /** The text comes back, or the same with one terminator more when a gap is left. */
  lemma {:induction false} TextComesBack(text: string, e: Course, last: Doc, url: string, replace: bool,
          replaceRealtime: bool, c: Codec)
    requires OpenEnded(text) && EndsVisibly(Parse(text + "\n")) && Twins(last, e.steps.last)
    requires Follows(e, text + "\n", url, replace, replaceRealtime, c)
    ensures !LeavesGap(e.routed.lines) ==> Render(last) == text
    ensures LeavesGap(e.routed.lines) ==> exists b :: IsTerminator(b) && Render(last) == text + b
  {
    hide Parse, Render, Twins, Follows, At, Flat, LeavesGap, OpenEnded, Kept, IsTerminator;
    ParseTwins(text);
    ParseRoundTrip(text);
    var d0 := Parse(text + "\n");
    LastStep(text + "\n", e, url, replace, replaceRealtime, c);
    if LeavesGap(e.routed.lines) {
      var b := GapRenders(last, e.steps.last, e.rs, Parse(text), d0);
    } else {
      End(e.steps.last, e.rs, d0);
      TwinsAreUnique(last, Parse(text), d0);
    }
  }

  lemma {:induction false} LastStep(text: string, e: Course, url: string, replace: bool, replaceRealtime: bool,
          c: Codec)
    requires Follows(e, text, url, replace, replaceRealtime, c)
    ensures e.rs != [] && Flat(e.rs) == Kept(Parse(text).lines)
    ensures LeavesGap(e.routed.lines) ==> At(e.steps.last, F.Gapped(e.rs, true), Parse(text))
    ensures !LeavesGap(e.routed.lines) ==> At(e.steps.last, e.rs, Parse(text))
  {
    hide Parse, Render, SplitLines, InstallRoute, InstallFeatures, Install, Restore, VerifyInstalledRoute, LeavesGap;
    hide At, WellFormed, Flat, LastIsText, StepsDown, Kept, Clean, Installed, WithDepth, Ready, DepthFits;
    hide F.PutMultiAgent, InstalledFits;
  }
}
