/**
 * Installing and restoring the managed route and the Compatibility V1 features in a user's config file.
 * JSON encoding and decoding of strings is a parameter.
 */
module ConfigEdit {
  import opened Common
  import opened Toml
  import opened ConfigLines
  import opened Document
  import InlineTable

  const BASE_URL: string := "openai_base_url"
  const PROVIDER: string := "model_provider"
  const CATALOG: string := "model_catalog_json"
  const REALTIME: string := "experimental_realtime_webrtc_call_base_url"
  const REALTIME_URL: string := "https://chatgpt.com/backend-api/codex"
  const OWNER: string := "# Managed by " + "codex-chatgpt-web"
  const OLD_COMMENT: string :=
    OWNER + "; `codex-chatgpt-" + "web uninstall` " + "restores prior " + "values."
  const ROUTE_COMMENT: string :=
    OWNER + ": Responses use " + "the local bridge; " + "Voice stays on " + "ChatGPT."

  const FEATURES: string := "features"
  const V2_TABLE: string := "features.multi_agent_v2"
  const AGENTS: string := "agents"
  const MULTI_AGENT: string := "multi_agent"
  const MULTI_AGENT_V2: string := "multi_agent_v2"
  const ENABLED: string := "enabled"
  const MAX_DEPTH: string := "max_depth"

  const MULTI_AGENT_NOTE: string := OWNER + ": enables routed " + "Web subagents."
  const V2_NOTE: string := OWNER + ": keeps routed " + "Web subagent " + "payloads " + "readable."
  const DEPTH_NOTE: string :=
    OWNER + ": allows nested " + "routed Web " + "subagents in " + "Compatibility V1."
  const MIN_DEPTH: nat := 2
  const MAX_SAFE: nat := 0x1F_FFFF_FFFF_FFFF

  /** `JSON.stringify` of a string, and `JSON.parse` of a quoted one. */
  datatype Codec = Codec(quote: string -> string, json: InlineTable.Json)

  function ManagedLine(key: string, value: string, note: string): string {
    key + " = " + (value + " " + note)
  }

  function MultiAgentLine(): string {
    ManagedLine(MULTI_AGENT, "true", MULTI_AGENT_NOTE)
  }

  function V2Line(): string {
    ManagedLine(MULTI_AGENT_V2, "false", V2_NOTE)
  }

  function V2TableLine(): string {
    ManagedLine(ENABLED, "false", V2_NOTE)
  }

  function DepthLine(depth: nat): string {
    ManagedLine(MAX_DEPTH, Decimal(depth), DEPTH_NOTE)
  }

  function UrlLine(key: string, url: string, c: Codec): string {
    key + " = " + c.quote(url)
  }

  // ---- Numbers ----

  function Digit(n: nat): char
    requires n < 10
  {
    ['0', '1', '2', '3', '4', '5', '6', '7', '8', '9'][n]
  }

  function Decimal(n: nat): (s: string)
    ensures s != ""
  {
    if n < 10 then [Digit(n)] else Decimal(n / 10) + [Digit(n % 10)]
  }

  predicate IsDigits(s: string) {
    s != "" && forall i :: 0 <= i < |s| ==> '0' <= s[i] <= '9'
  }

  function NumberOf(s: string): nat
    requires forall i :: 0 <= i < |s| ==> '0' <= s[i] <= '9'
  {
    if s == "" then 0 else NumberOf(s[..|s| - 1]) * 10 + (s[|s| - 1] as int - '0' as int)
  }

  function WithoutUnderscores(s: string): string {
    if s == "" then "" else (if s[0] == '_' then "" else [s[0]]) + WithoutUnderscores(s[1..])
  }

  // ---- Reading ----

  function DecodeString(raw: string, c: Codec): Result<string> {
    var v := Trim(StripComment(raw));
    if InlineTable.Wrapped(v, '"') then
      match c.json.parse(v)
      case Some(s) => Ok(s)
      case None => Err("unparsable string")
    else if InlineTable.Wrapped(v, '\'') then Ok(if |v| == 1 then "" else v[1..|v| - 1])
    else Err("not a quoted string")
  }

  function FindTop(lines: seq<string>, key: string, c: Codec): (r: Result<Option<Assignment>>)
    ensures r.Ok? && r.value.Some? ==> r.value.value.index < |lines|
  {
    var found :- OnlyMatch(lines[..FirstTable(lines)], key, 0);
    if found.None? then Ok(None)
    else
      var value :- DecodeString(found.value.value, c);
      Ok(Some(found.value.(value := value)))
  }

  /** The route assignment, after all three managed keys could be read. */
  function ReadRoute(lines: seq<string>, c: Codec): (r: Result<Option<Assignment>>)
    ensures r.Ok? && r.value.Some? ==> r.value.value.index < |lines|
  {
    var base :- FindTop(lines, BASE_URL, c);
    var _ :- FindTop(lines, PROVIDER, c);
    var _ :- FindTop(lines, CATALOG, c);
    Ok(base)
  }

  /** What was there before: the assignment, its table, its form, and whether a separator line was recorded. */
  datatype Previous = Previous(at: Option<Assignment>, tablePresent: bool, v2Table: bool, inline: bool, separator: bool)

  function RawIn(lines: seq<string>, table: string, key: string): (r: Result<Previous>)
    ensures r.Ok? && r.value.at.Some? ==> r.value.at.value.index < |lines|
  {
    var range :- FindTable(lines, table);
    if range.None? then Ok(Previous(None, false, table == V2_TABLE, false, false))
    else
      var body := lines[range.value.header + 1..range.value.end];
      var found :- OnlyMatch(body, key, range.value.header + 1);
      Ok(Previous(found, true, table == V2_TABLE, false, false))
  }

  predicate IsBoolean(s: string) {
    s == "true" || s == "false"
  }

  function Scalar(raw: string): string {
    Trim(StripComment(raw))
  }

  /** Replace the raw value by its scalar when it passes a check. */
  function WithScalar(p: Previous, scalar: string, ok: bool): Result<Previous>
    requires p.at.Some?
  {
    if ok then Ok(p.(at := Some(p.at.value.(value := scalar)))) else Err("invalid value")
  }

  function BooleanIn(lines: seq<string>, table: string, key: string): (r: Result<Previous>)
    ensures r.Ok? && r.value.at.Some? ==> r.value.at.value.index < |lines|
  {
    var found :- RawIn(lines, table, key);
    if found.at.None? then Ok(found)
    else WithScalar(found, Scalar(found.at.value.value), IsBoolean(Scalar(found.at.value.value)))
  }

  predicate IsDepth(s: string) {
    IsDigits(s) && 1 <= NumberOf(s) <= MAX_SAFE
  }

  function FindDepth(lines: seq<string>): (r: Result<Previous>)
    ensures r.Ok? && r.value.at.Some? ==> r.value.at.value.index < |lines|
  {
    var found :- RawIn(lines, AGENTS, MAX_DEPTH);
    if found.at.None? then Ok(found)
    else
      var value := WithoutUnderscores(Scalar(found.at.value.value));
      WithScalar(found, value, IsDepth(value))
  }

  /** The `multi_agent_v2` setting in any of its three forms; a scalar beside a table is an error. */
  function FindV2(lines: seq<string>, json: InlineTable.Json): (r: Result<Previous>)
    ensures r.Ok? && r.value.at.Some? ==> r.value.at.value.index < |lines|
  {
    var raw :- RawIn(lines, FEATURES, MULTI_AGENT_V2);
    var table :- FindTable(lines, V2_TABLE);
    if raw.at.Some? && table.Some? then Err("both scalar and table")
    else if table.Some? then BooleanIn(lines, V2_TABLE, ENABLED)
    else if raw.at.None? then Ok(raw)
    else
      var value := raw.at.value.value;
      if IsBoolean(Scalar(value)) then WithScalar(raw, Scalar(value), true)
      else
        var inline :- InlineTable.Parse(value, json);
        if inline.None? then Err("neither a boolean nor an inline table")
        else Ok(raw.(at := Some(raw.at.value.(value := InlineTable.ValueOf(inline.value, json))), inline := true))
  }

  /** The line that sets `multi_agent_v2` to false in the form it had. */
  function ManagedV2Line(p: Previous, json: InlineTable.Json): Result<string> {
    if !p.inline then Ok(if p.v2Table then V2TableLine() else V2Line())
    else if p.at.None? then Err("missing inline table")
    else
      var line := p.at.value.line;
      match AfterEquals(line, MULTI_AGENT_V2)
      case None => Err("unparsable inline table")
      case Some(right) =>
        var raw := TrimStart(right);
        var t := InlineTable.Parse(raw, json);
        if t.Err? || t.value.None? then Err("unparsable inline table")
        else
          InlineTable.ShapeOf(raw, json);
          Ok(line[..|line| - |raw|] + InlineTable.Managed(raw, t.value.value, json))
  }

  // ---- Writing ----

  function SetLine(d: Doc, i: nat, line: string): (r: Doc)
    requires Valid(d) && i < |d.lines|
    ensures Valid(r)
  {
    d.(lines := d.lines[i := line])
  }

  predicate IsManagedComment(line: string) {
    line == OLD_COMMENT || line == ROUTE_COMMENT
  }

  /** Remove the managed comments among the first `n` lines, last one first. */
  function RemoveComments(d: Doc, n: nat): (r: Doc)
    requires Valid(d) && n <= |d.lines|
    ensures Valid(r)
    decreases n
  {
    if n == 0 then d
    else RemoveComments(if IsManagedComment(d.lines[n - 1]) then Remove(d, n - 1) else d, n - 1)
  }

  /** A table header at the end, after an empty line unless the last line is blank. */
  function AppendTable(d: Doc, name: string): (r: Doc)
    requires Valid(d)
    ensures Valid(r)
  {
    var spaced := if d.lines != [] && !IsBlank(d.lines[|d.lines| - 1]) then Insert(d, |d.lines|, "") else d;
    Insert(spaced, |spaced.lines|, Header(name))
  }

  function InsertInTable(d: Doc, table: string, line: string): (r: Result<Doc>)
    requires Valid(d)
    ensures r.Ok? ==> Valid(r.value)
  {
    var found :- FindTable(d.lines, table);
    if found.Some? then Ok(Insert(d, found.value.end, line)) else Err("missing table")
  }

  function SetFeature(d: Doc, key: string, line: string): (r: Result<Doc>)
    requires Valid(d)
    ensures r.Ok? ==> Valid(r.value)
  {
    var current :- BooleanIn(d.lines, FEATURES, key);
    if current.at.Some? then Ok(SetLine(d, current.at.value.index, line))
    else
      var table :- FindTable(d.lines, FEATURES);
      InsertInTable(if table.Some? then d else AppendTable(d, FEATURES), FEATURES, line)
  }

  /** Where a line goes at the end of a table, before the blank lines that end it. */
  function BeforeBlanks(lines: seq<string>, low: nat, end: nat): (i: nat)
    requires low <= end <= |lines|
    ensures low <= i <= end
  {
    if end > low && IsBlank(lines[end - 1]) then BeforeBlanks(lines, low, end - 1) else end
  }

  function SetDepth(d: Doc, depth: nat): (r: Result<Doc>)
    requires Valid(d)
    ensures r.Ok? ==> Valid(r.value)
  {
    var current :- FindDepth(d.lines);
    if current.at.Some? then Ok(SetLine(d, current.at.value.index, DepthLine(depth)))
    else
      var before :- FindTable(d.lines, AGENTS);
      var d1 := if before.Some? then d else AppendTable(d, AGENTS);
      var table :- FindTable(d1.lines, AGENTS);
      if table.None? then Err("missing table")
      else Ok(Insert(d1, BeforeBlanks(d1.lines, table.value.header + 1, table.value.end), DepthLine(depth)))
  }

  function SetV2(d: Doc, p: Previous, json: InlineTable.Json): (r: Result<Doc>)
    requires Valid(d)
    ensures r.Ok? ==> Valid(r.value)
  {
    if p.inline then
      var line :- ManagedV2Line(p, json);
      if p.at.None? || p.at.value.index >= |d.lines| then Err("inline table disappeared")
      else Ok(SetLine(d, p.at.value.index, line))
    else if p.v2Table then
      var current :- BooleanIn(d.lines, V2_TABLE, ENABLED);
      if current.at.Some? then Ok(SetLine(d, current.at.value.index, V2TableLine()))
      else InsertInTable(d, V2_TABLE, V2TableLine())
    else SetFeature(d, MULTI_AGENT_V2, V2Line())
  }

  datatype RouteBefore = RouteBefore(base: Option<Assignment>, realtime: Option<Assignment>)

  datatype Features = Features(multiAgent: Previous, v2: Previous, depth: Previous, installedDepth: nat)

  function InstallRoute(d: Doc, url: string, replace: bool, replaceRealtime: bool,
          c: Codec): (r: Result<(Doc, RouteBefore)>)
    requires Valid(d)
    ensures r.Ok? ==> Valid(r.value.0)
  {
    var base :- ReadRoute(d.lines, c);
    if base.Some? && !replace then Err("a route is already configured")
    else
      var realtime :- FindTop(d.lines, REALTIME, c);
      if realtime.Some? && realtime.value.value != REALTIME_URL && !replaceRealtime
          then Err("a realtime route is already configured")
      else
        var baseLine := UrlLine(BASE_URL, url, c);
        var d1 := if base.Some? then SetLine(d, base.value.index, baseLine)
            else Insert(d, FirstTable(d.lines), baseLine);
        var d2 :- PlaceRealtime(d1, c);
        var d3 := RemoveComments(d2, |d2.lines|);
        var placed :- FindTop(d3.lines, BASE_URL, c);
        if placed.None? then Err("missing route")
        else Ok((Insert(d3, placed.value.index, ROUTE_COMMENT), RouteBefore(base, realtime)))
  }

  /** The route keys read, and no route of the user's is in the way that may not be replaced. */
  predicate RouteAllowed(lines: seq<string>, replace: bool, replaceRealtime: bool, c: Codec) {
    var base, realtime := ReadRoute(lines, c), FindTop(lines, REALTIME, c);
    && base.Ok? && (base.value.Some? ==> replace)
    && realtime.Ok? && (realtime.value.Some? && realtime.value.value.value != REALTIME_URL ==> replaceRealtime)
  }

  function PlaceRealtime(d: Doc, c: Codec): (r: Result<Doc>)
    requires Valid(d)
    ensures r.Ok? ==> Valid(r.value)
  {
    var line := UrlLine(REALTIME, REALTIME_URL, c);
    var current :- FindTop(d.lines, REALTIME, c);
    if current.Some? then Ok(SetLine(d, current.value.index, line))
    else
      var base :- FindTop(d.lines, BASE_URL, c);
      if base.None? then Err("missing route") else Ok(Insert(d, base.value.index + 1, line))
  }

  predicate LastIsText(lines: seq<string>) {
    lines != [] && !IsBlank(lines[|lines| - 1])
  }

  function InstallFeatures(d: Doc, json: InlineTable.Json): (r: Result<(Doc, Features)>)
    requires Valid(d)
    ensures r.Ok? ==> Valid(r.value.0)
  {
    var multiAgent :- BooleanIn(d.lines, FEATURES, MULTI_AGENT);
    var v2 :- FindV2(d.lines, json);
    var depth :- FindDepth(d.lines);
    var multiAgent' := multiAgent.(separator := !multiAgent.tablePresent && LastIsText(d.lines));
    var depth' := depth.(separator := !depth.tablePresent && LastIsText(d.lines));
    var installed := InstalledDepth(depth);
    var d1 :- SetFeature(d, MULTI_AGENT, MultiAgentLine());
    var d2 :- SetV2(d1, v2, json);
    var d3 :- SetDepth(d2, installed);
    Ok((d3, Features(multiAgent', v2, depth', installed)))
  }

  /** Each setting the features touch is absent, or set once to a value that reads. */
  predicate FeaturesReadable(lines: seq<string>, json: InlineTable.Json) {
    BooleanIn(lines, FEATURES, MULTI_AGENT).Ok? && FindV2(lines, json).Ok? && FindDepth(lines).Ok?
  }

  function InstalledDepth(p: Previous): nat {
    if p.at.Some? && IsDigits(p.at.value.value) && NumberOf(p.at.value.value) > MIN_DEPTH
    then NumberOf(p.at.value.value) else MIN_DEPTH
  }

  // ---- Verifying ----

  function Check(ok: bool): Result<()> {
    if ok then Ok(()) else Err("changed after setup")
  }

  predicate Has(p: Previous, value: string, line: string) {
    p.at.Some? && p.at.value.value == value && p.at.value.line == line
  }

  function VerifyFeature(lines: seq<string>, key: string, value: string, line: string): Result<()> {
    var current :- BooleanIn(lines, FEATURES, key);
    Check(Has(current, value, line))
  }

  function VerifyV2(lines: seq<string>, p: Previous, json: InlineTable.Json): Result<()> {
    if p.inline then
      var current :- FindV2(lines, json);
      var line :- ManagedV2Line(p, json);
      Check(current.inline && Has(current, "false", line))
    else if !p.v2Table then
      var current :- FindV2(lines, json);
      Check(!current.v2Table && Has(current, "false", V2Line()))
    else
      var scalar :- BooleanIn(lines, FEATURES, MULTI_AGENT_V2);
      if scalar.at.Some? then Err("changed after setup")
      else
        var current :- BooleanIn(lines, V2_TABLE, ENABLED);
        Check(Has(current, "false", V2TableLine()))
  }

  function VerifyDepth(lines: seq<string>, depth: nat): Result<()> {
    var current :- FindDepth(lines);
    Check(Has(current, Decimal(depth), DepthLine(depth)))
  }

  function VerifyFeatures(lines: seq<string>, f: Features, json: InlineTable.Json): Result<()> {
    var _ :- VerifyFeature(lines, MULTI_AGENT, "true", MultiAgentLine());
    var _ :- VerifyV2(lines, f.v2, json);
    VerifyDepth(lines, f.installedDepth)
  }

  datatype Journal = Journal(active: bool, url: string, before: RouteBefore, features: Option<Features>)

  function VerifyInstalledRoute(lines: seq<string>, j: Journal, c: Codec): Result<()> {
    var base :- ReadRoute(lines, c);
    var _ :- Check(base.Some? && base.value.value == j.url);
    var _ :- Check(ROUTE_COMMENT in lines);
    var realtime :- FindTop(lines, REALTIME, c);
    var _ :- Check(realtime.Some? && realtime.value.value == REALTIME_URL
                   && realtime.value.line == UrlLine(REALTIME, REALTIME_URL, c));
    match j.features
    case None => Ok(())
    case Some(f) => VerifyFeatures(lines, f, c.json)
  }

  predicate SameValue(current: Option<Assignment>, previous: Option<Assignment>) {
    current.Some? == previous.Some? && (current.Some? ==> current.value.value == previous.value.value)
  }

  predicate SameLine(current: Option<Assignment>, previous: Option<Assignment>) {
    current.Some? == previous.Some? && (current.Some? ==> current.value.line == previous.value.line)
  }

  function VerifyRestoredRoute(lines: seq<string>, j: Journal, c: Codec): Result<()> {
    var base :- ReadRoute(lines, c);
    var _ :- Check(SameValue(base, j.before.base));
    var _ :- Check(OLD_COMMENT !in lines && ROUTE_COMMENT !in lines);
    var realtime :- FindTop(lines, REALTIME, c);
    var _ :- Check(SameValue(realtime, j.before.realtime) && SameLine(realtime, j.before.realtime));
    match j.features
    case None => Ok(())
    case Some(f) =>
      var multiAgent :- BooleanIn(lines, FEATURES, MULTI_AGENT);
      var _ :- Check(SameLine(multiAgent.at, f.multiAgent.at));
      var v2 :- FindV2(lines, c.json);
      var _ :- Check(SameLine(v2.at, f.v2.at) && (v2.at.Some? ==> v2.v2Table == f.v2.v2Table));
      var depth :- FindDepth(lines);
      Check(SameLine(depth.at, f.depth.at))
  }

  // ---- Restoring ----

  /** Put a previous line back, or take the line away. */
  function PutBack(d: Doc, i: nat, previous: Option<Assignment>): (r: Doc)
    requires Valid(d) && i < |d.lines|
    ensures Valid(r)
  {
    if previous.Some? then SetLine(d, i, previous.value.line) else Remove(d, i)
  }

  function RestoreRoute(d: Doc, before: RouteBefore, c: Codec): (r: Result<Doc>)
    requires Valid(d)
    ensures r.Ok? ==> Valid(r.value)
  {
    var d1 := RemoveComments(d, |d.lines|);
    var base :- FindTop(d1.lines, BASE_URL, c);
    if base.None? then Err("missing route")
    else
      var d2 := PutBack(d1, base.value.index, before.base);
      var realtime :- FindTop(d2.lines, REALTIME, c);
      if realtime.None? then Err("missing realtime route")
      else Ok(PutBack(d2, realtime.value.index, before.realtime))
  }

  predicate HasText(lines: seq<string>) {
    exists i :: 0 <= i < |lines| && !IsBlank(lines[i])
  }

  /** Remove a table that is empty but for blank lines, and its recorded separator. */
  function RemoveEmptyTable(d: Doc, name: string, separator: bool): (r: Result<Doc>)
    requires Valid(d)
    ensures r.Ok? ==> Valid(r.value)
  {
    var table :- FindTable(d.lines, name);
    if table.None? then Err("missing table")
    else
      var h, body := table.value.header, d.lines[table.value.header + 1..table.value.end];
      if HasText(body) then Ok(d)
      else
        var d1 := Remove(d, h);
        if separator && h > 0 && d1.lines[h - 1] == "" then Ok(Remove(d1, h - 1)) else Ok(d1)
  }

  function RestoreAt(d: Doc, i: nat, p: Previous, table: string): (r: Result<Doc>)
    requires Valid(d) && i < |d.lines|
    ensures r.Ok? ==> Valid(r.value)
  {
    var d1 := PutBack(d, i, p.at);
    if p.at.Some? || p.tablePresent then Ok(d1) else RemoveEmptyTable(d1, table, p.separator)
  }

  function RestoreFeature(d: Doc, key: string, value: string, line: string, p: Previous): (r: Result<Doc>)
    requires Valid(d)
    ensures r.Ok? ==> Valid(r.value)
  {
    var _ :- VerifyFeature(d.lines, key, value, line);
    match BooleanIn(d.lines, FEATURES, key)
    case Err(e) => Err(e)
    case Ok(current) =>
      if current.at.None? then Err("missing") else RestoreAt(d, current.at.value.index, p, FEATURES)
  }

  function RestoreV2(d: Doc, p: Previous, json: InlineTable.Json): (r: Result<Doc>)
    requires Valid(d)
    ensures r.Ok? ==> Valid(r.value)
  {
    if p.inline then
      var _ :- VerifyV2(d.lines, p, json);
      match FindV2(d.lines, json)
      case Err(e) => Err(e)
      case Ok(current) =>
        if current.at.None? || p.at.None? then Err("missing")
        else Ok(SetLine(d, current.at.value.index, p.at.value.line))
    else if !p.v2Table then RestoreFeature(d, MULTI_AGENT_V2, "false", V2Line(), p)
    else
      var _ :- VerifyV2(d.lines, p, json);
      match BooleanIn(d.lines, V2_TABLE, ENABLED)
      case Err(e) => Err(e)
      case Ok(current) =>
        if current.at.None? then Err("missing") else Ok(PutBack(d, current.at.value.index, p.at))
  }

  function RestoreDepth(d: Doc, p: Previous, depth: nat): (r: Result<Doc>)
    requires Valid(d)
    ensures r.Ok? ==> Valid(r.value)
  {
    var _ :- VerifyDepth(d.lines, depth);
    match FindDepth(d.lines)
    case Err(e) => Err(e)
    case Ok(current) =>
      if current.at.None? then Err("missing") else RestoreAt(d, current.at.value.index, p, AGENTS)
  }

  // ---- Whole files ----

  /** Installing the route and, in Compatibility V1, the features, each on the text the last step rendered. */
  function Install(text: string, url: string, compatibility: bool, replace: bool, replaceRealtime: bool,
          c: Codec) : Result<(string, Journal)>
  {
    var route :- InstallRoute(Parse(text), url, replace, replaceRealtime, c);
    var routed := Render(route.0);
    if !compatibility then Ok((routed, Journal(true, url, route.1, None)))
    else
      var features :- InstallFeatures(Parse(routed), c.json);
      Ok((Render(features.0), Journal(true, url, route.1, Some(features.1))))
  }

  /** Restoring: verify, the route, then `multi_agent_v2`, `multi_agent` and the depth, each on rendered text. */
  function Restore(text: string, j: Journal, c: Codec): Result<string> {
    var _ :- VerifyInstalledRoute(SplitLines(text), j, c);
    var route :- RestoreRoute(Parse(text), j.before, c);
    match j.features
    case None => Ok(Render(route))
    case Some(f) =>
      var v2 :- RestoreV2(Parse(Render(route)), f.v2, c.json);
      var multiAgent :- RestoreFeature(Parse(Render(v2)), MULTI_AGENT, "true", MultiAgentLine(), f.multiAgent);
      var depth :- RestoreDepth(Parse(Render(multiAgent)), f.depth, f.installedDepth);
      Ok(Render(depth))
  }
}
