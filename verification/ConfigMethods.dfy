/**
 * The config edits as they are done: step by step on a document object, each against its specification in
 * `ConfigEdit`. A failed edit throws its document away, so only its error is specified.
 */
module ConfigMethods {
  import opened Common
  import opened Toml
  import opened ConfigLines
  import opened Document
  import opened ConfigEdit
  import InlineTable
  import InlineTableScan

  /** What an edit of an object does: the specified document, or the specified error. */
  predicate Done(now: Doc, specified: Result<Doc>, r: Result<()>) {
    match specified
    case Ok(d) => r == Ok(()) && now == d
    case Err(e) => r == Err(e)
  }

  method RemoveManagedComment(doc: ConfigDocument)
    requires Valid(doc.View())
    modifies doc`lines, doc`endings
    ensures doc.View() == RemoveComments(old(doc.View()), |old(doc.lines)|)
  {
    hide Remove;
    var index := |doc.lines|;
    while index > 0
      invariant 0 <= index <= |doc.lines| && Valid(doc.View())
      invariant RemoveComments(doc.View(), index) == RemoveComments(old(doc.View()), |old(doc.lines)|)
    {
      index := index - 1;
      RemoveKeepsRest(doc.View(), index);
      if doc.lines[index] == OLD_COMMENT || doc.lines[index] == ROUTE_COMMENT {
        doc.RemoveLine(index);
      }
    }
  }

  lemma {:induction false} RemoveKeepsRest(d: Doc, i: nat)
    requires Valid(d) && i < |d.lines|
    ensures Valid(Remove(d, i)) && |Remove(d, i).lines| == |d.lines| - 1
  {
  }

  method AppendTableTo(doc: ConfigDocument, name: string)
    requires Valid(doc.View())
    modifies doc`lines, doc`endings
    ensures Valid(doc.View()) && doc.View() == AppendTable(old(doc.View()), name)
  {
    hide Insert;
    if |doc.lines| > 0 && !IsBlank(doc.lines[|doc.lines| - 1]) {
      InsertIsValid(doc.View(), |doc.lines|, "");
      doc.InsertLine(|doc.lines|, "");
    }
    InsertIsValid(doc.View(), |doc.lines|, Header(name));
    doc.InsertLine(|doc.lines|, Header(name));
  }

  lemma {:induction false} InsertIsValid(d: Doc, i: int, line: string)
    requires Valid(d)
    ensures Valid(Insert(d, i, line))
  {
  }

  method SetScalarFeature(doc: ConfigDocument, key: string, line: string) returns (r: Result<()>)
    requires Valid(doc.View())
    modifies doc`lines, doc`endings
    ensures Valid(doc.View()) && Done(doc.View(), SetFeature(old(doc.View()), key, line), r)
  {
    hide Insert, BooleanIn, FindTable, AppendTable;
    var current :- BooleanIn(doc.lines, FEATURES, key);
    if current.at.Some? {
      doc.SetLine(current.at.value.index, line);
      return Ok(());
    }
    var table :- FindTable(doc.lines, FEATURES);
    if table.None? {
      AppendTableTo(doc, FEATURES);
      table :- FindTable(doc.lines, FEATURES);
      if table.None? {
        return Err("missing table");
      }
    }
    InsertIsValid(doc.View(), table.value.end, line);
    doc.InsertLine(table.value.end, line);
    r := Ok(());
  }

  method SetAgentMaxDepth(doc: ConfigDocument, depth: nat) returns (r: Result<()>)
    requires Valid(doc.View())
    modifies doc`lines, doc`endings
    ensures Valid(doc.View()) && Done(doc.View(), SetDepth(old(doc.View()), depth), r)
  {
    hide Insert, FindDepth, FindTable, AppendTable, IsBlank, DepthLine;
    var current :- FindDepth(doc.lines);
    if current.at.Some? {
      doc.SetLine(current.at.value.index, DepthLine(depth));
      return Ok(());
    }
    var table :- FindTable(doc.lines, AGENTS);
    if table.None? {
      AppendTableTo(doc, AGENTS);
      table :- FindTable(doc.lines, AGENTS);
      if table.None? {
        return Err("missing table");
      }
    }
    var low, position := table.value.header + 1, table.value.end;
    while position > low && IsBlank(doc.lines[position - 1])
      invariant low <= position <= |doc.lines|
      invariant BeforeBlanks(doc.lines, low, position) == BeforeBlanks(doc.lines, low, table.value.end)
    {
      position := position - 1;
    }
    InsertIsValid(doc.View(), position, DepthLine(depth));
    doc.InsertLine(position, DepthLine(depth));
    r := Ok(());
  }

  /** The managed line, spliced from the indices the scanner finds. */
  method ManagedMultiAgentV2AssignmentLine(previous: Previous, json: InlineTable.Json) returns (r: Result<string>)
    ensures r == ManagedV2Line(previous, json)
  {
    hide InlineTable.Parse, InlineTable.Managed, AfterEquals, TrimStart;
    if !previous.inline {
      return Ok(if previous.v2Table then V2TableLine() else V2Line());
    }
    if previous.at.None? {
      return Err("missing inline table");
    }
    var line := previous.at.value.line;
    var right := AfterEquals(line, MULTI_AGENT_V2);
    if right.None? {
      return Err("unparsable inline table");
    }
    var raw := TrimStart(right.value);
    var value := InlineTableScan.ManagedValue(raw, json);
    if value.Err? || value.value.None? {
      return Err("unparsable inline table");
    }
    r := Ok(line[..|line| - |raw|] + value.value.value);
  }

  method SetMultiAgentV2(doc: ConfigDocument, previous: Previous, json: InlineTable.Json) returns (r: Result<()>)
    requires Valid(doc.View())
    modifies doc`lines, doc`endings
    ensures Valid(doc.View()) && Done(doc.View(), SetV2(old(doc.View()), previous, json), r)
  {
    hide Insert, BooleanIn, FindTable, SetFeature, ManagedV2Line;
    if previous.inline {
      var line :- ManagedMultiAgentV2AssignmentLine(previous, json);
      if previous.at.None? || previous.at.value.index >= |doc.lines| {
        return Err("inline table disappeared");
      }
      doc.SetLine(previous.at.value.index, line);
      return Ok(());
    }
    if !previous.v2Table {
      r := SetScalarFeature(doc, MULTI_AGENT_V2, V2Line());
      return;
    }
    var current :- BooleanIn(doc.lines, V2_TABLE, ENABLED);
    if current.at.Some? {
      doc.SetLine(current.at.value.index, V2TableLine());
      return Ok(());
    }
    var table :- FindTable(doc.lines, V2_TABLE);
    if table.None? {
      return Err("missing table");
    }
    InsertIsValid(doc.View(), table.value.end, V2TableLine());
    doc.InsertLine(table.value.end, V2TableLine());
    r := Ok(());
  }

  method InstallCompatibilityV1Features(text: string, json: InlineTable.Json) returns (r: Result<(string, Features)>)
    ensures match InstallFeatures(Parse(text), json)
            case Ok(done) => r == Ok((Render(done.0), done.1))
            case Err(e) => r == Err(e)
  {
    hide Parse, Render, BooleanIn, FindV2, FindDepth, SetFeature, SetV2, SetDepth, IsBlank, InstalledDepth;
    var doc := new ConfigDocument(text);
    ParsedIsValid(text);
    var foundMultiAgent :- BooleanIn(doc.lines, FEATURES, MULTI_AGENT);
    var lastIsText := |doc.lines| > 0 && !IsBlank(doc.lines[|doc.lines| - 1]);
    var previousMultiAgent := foundMultiAgent.(separator := !foundMultiAgent.tablePresent && lastIsText);
    var previousV2 :- FindV2(doc.lines, json);
    var foundDepth :- FindDepth(doc.lines);
    var previousDepth := foundDepth.(separator := !foundDepth.tablePresent && lastIsText);
    var depth := InstalledDepth(foundDepth);
    var _ :- SetScalarFeature(doc, MULTI_AGENT, MultiAgentLine());
    var _ :- SetMultiAgentV2(doc, previousV2, json);
    var _ :- SetAgentMaxDepth(doc, depth);
    var rendered := doc.RenderText();
    r := Ok((rendered, Features(previousMultiAgent, previousV2, previousDepth, depth)));
  }

  lemma {:induction false} ParsedIsValid(text: string)
    ensures Valid(Parse(text))
  {
  }

  method InstallRouteInto(text: string, url: string, replace: bool, replaceRealtime: bool, c: Codec)
    returns (r: Result<(string, RouteBefore)>)
    ensures match InstallRoute(Parse(text), url, replace, replaceRealtime, c)
            case Ok(done) => r == Ok((Render(done.0), done.1))
            case Err(e) => r == Err(e)
  {
    hide Parse, Render, FindTop, ReadRoute, Insert, RemoveComments, UrlLine;
    var doc := new ConfigDocument(text);
    ParsedIsValid(text);
    var base :- ReadRoute(doc.lines, c);
    if base.Some? && !replace {
      return Err("a route is already configured");
    }
    var realtime :- FindTop(doc.lines, REALTIME, c);
    if realtime.Some? && realtime.value.value != REALTIME_URL && !replaceRealtime {
      return Err("a realtime route is already configured");
    }
    var baseLine := UrlLine(BASE_URL, url, c);
    if base.Some? {
      doc.SetLine(base.value.index, baseLine);
    } else {
      InsertIsValid(doc.View(), FirstTable(doc.lines), baseLine);
      doc.InsertLine(FirstTable(doc.lines), baseLine);
    }
    var _ :- PlaceRealtimeIn(doc, c);
    RemoveManagedComment(doc);
    var placed :- FindTop(doc.lines, BASE_URL, c);
    if placed.None? {
      return Err("missing route");
    }
    InsertIsValid(doc.View(), placed.value.index, ROUTE_COMMENT);
    doc.InsertLine(placed.value.index, ROUTE_COMMENT);
    var rendered := doc.RenderText();
    r := Ok((rendered, RouteBefore(base, realtime)));
  }

  method PlaceRealtimeIn(doc: ConfigDocument, c: Codec) returns (r: Result<()>)
    requires Valid(doc.View())
    modifies doc`lines, doc`endings
    ensures Valid(doc.View()) && Done(doc.View(), PlaceRealtime(old(doc.View()), c), r)
  {
    hide FindTop, Insert, UrlLine;
    var line := UrlLine(REALTIME, REALTIME_URL, c);
    var current :- FindTop(doc.lines, REALTIME, c);
    if current.Some? {
      doc.SetLine(current.value.index, line);
      return Ok(());
    }
    var base :- FindTop(doc.lines, BASE_URL, c);
    if base.None? {
      return Err("missing route");
    }
    InsertIsValid(doc.View(), base.value.index + 1, line);
    doc.InsertLine(base.value.index + 1, line);
    r := Ok(());
  }

  /** Setting up: the route and then, in Compatibility V1, the features. */
  method InstallConfiguredRoute(text: string, url: string, compatibility: bool, replace: bool, replaceRealtime: bool,
          c: Codec)
    returns (r: Result<(string, Journal)>)
    ensures r == Install(text, url, compatibility, replace, replaceRealtime, c)
  {
    hide Parse, Render, InstallRoute, InstallFeatures;
    var route :- InstallRouteInto(text, url, replace, replaceRealtime, c);
    if !compatibility {
      return Ok((route.0, Journal(true, url, route.1, None)));
    }
    var features :- InstallCompatibilityV1Features(route.0, c.json);
    r := Ok((features.0, Journal(true, url, route.1, Some(features.1))));
  }

  // ---- Restoring ----

  method PutLineBack(doc: ConfigDocument, index: nat, previous: Option<Assignment>)
    requires Valid(doc.View()) && index < |doc.lines|
    modifies doc`lines, doc`endings
    ensures Valid(doc.View()) && doc.View() == PutBack(old(doc.View()), index, previous)
  {
    hide Remove;
    RemoveKeepsRest(doc.View(), index);
    if previous.Some? {
      doc.SetLine(index, previous.value.line);
    } else {
      doc.RemoveLine(index);
    }
  }

  method RemoveEmptyTableFrom(doc: ConfigDocument, name: string, separator: bool) returns (r: Result<()>)
    requires Valid(doc.View())
    modifies doc`lines, doc`endings
    ensures Valid(doc.View()) && Done(doc.View(), RemoveEmptyTable(old(doc.View()), name, separator), r)
  {
    hide Remove, FindTable;
    var table :- FindTable(doc.lines, name);
    if table.None? {
      return Err("missing table");
    }
    var header := table.value.header;
    var remaining := doc.lines[header + 1..table.value.end];
    if HasText(remaining) {
      return Ok(());
    }
    RemoveKeepsRest(doc.View(), header);
    doc.RemoveLine(header);
    if separator && header > 0 && doc.lines[header - 1] == "" {
      RemoveKeepsRest(doc.View(), header - 1);
      doc.RemoveLine(header - 1);
    }
    r := Ok(());
  }

  method RestoreBooleanFeature(text: string, key: string, value: string, line: string, previous: Previous)
    returns (r: Result<string>)
    ensures match RestoreFeature(Parse(text), key, value, line, previous)
            case Ok(d) => r == Ok(Render(d))
            case Err(e) => r == Err(e)
  {
    hide Parse, Render, VerifyFeature, BooleanIn, RemoveEmptyTable, PutBack;
    var doc := new ConfigDocument(text);
    ParsedIsValid(text);
    var _ :- VerifyFeature(doc.lines, key, value, line);
    var current :- BooleanIn(doc.lines, FEATURES, key);
    if current.at.None? {
      return Err("missing");
    }
    PutLineBack(doc, current.at.value.index, previous.at);
    if previous.at.None? && !previous.tablePresent {
      var _ :- RemoveEmptyTableFrom(doc, FEATURES, previous.separator);
    }
    var rendered := doc.RenderText();
    r := Ok(rendered);
  }

  method RestoreMultiAgentV2Feature(text: string, previous: Previous, json: InlineTable.Json)
    returns (r: Result<string>)
    ensures match RestoreV2(Parse(text), previous, json)
            case Ok(d) => r == Ok(Render(d))
            case Err(e) => r == Err(e)
  {
    hide Parse, Render, VerifyV2, BooleanIn, FindV2, RestoreFeature, PutBack;
    if !previous.inline && !previous.v2Table {
      r := RestoreBooleanFeature(text, MULTI_AGENT_V2, "false", V2Line(), previous);
      return;
    }
    var doc := new ConfigDocument(text);
    ParsedIsValid(text);
    var _ :- VerifyV2(doc.lines, previous, json);
    if previous.inline {
      var current :- FindV2(doc.lines, json);
      if current.at.None? || previous.at.None? {
        return Err("missing");
      }
      doc.SetLine(current.at.value.index, previous.at.value.line);
    } else {
      var current :- BooleanIn(doc.lines, V2_TABLE, ENABLED);
      if current.at.None? {
        return Err("missing");
      }
      PutLineBack(doc, current.at.value.index, previous.at);
    }
    var rendered := doc.RenderText();
    r := Ok(rendered);
  }

  method RestoreCompatibilityV1AgentDepth(text: string, previous: Previous, depth: nat) returns (r: Result<string>)
    ensures match RestoreDepth(Parse(text), previous, depth)
            case Ok(d) => r == Ok(Render(d))
            case Err(e) => r == Err(e)
  {
    hide Parse, Render, VerifyDepth, FindDepth, RemoveEmptyTable, PutBack;
    var doc := new ConfigDocument(text);
    ParsedIsValid(text);
    var _ :- VerifyDepth(doc.lines, depth);
    var current :- FindDepth(doc.lines);
    if current.at.None? {
      return Err("missing");
    }
    PutLineBack(doc, current.at.value.index, previous.at);
    if previous.at.None? && !previous.tablePresent {
      var _ :- RemoveEmptyTableFrom(doc, AGENTS, previous.separator);
    }
    var rendered := doc.RenderText();
    r := Ok(rendered);
  }

  method RestoreManagedRoute(text: string, j: Journal, c: Codec) returns (r: Result<string>)
    ensures r == Restore(text, j, c)
  {
    hide Parse, Render, SplitLines, VerifyInstalledRoute, RestoreRoute, RestoreV2, RestoreFeature, RestoreDepth;
    var _ :- VerifyInstalledRoute(SplitLines(text), j, c);
    var restored :- RestoreRouteIn(text, j.before, c);
    if j.features.None? {
      return Ok(restored);
    }
    var f := j.features.value;
    var v2 :- RestoreMultiAgentV2Feature(restored, f.v2, c.json);
    var multiAgent :- RestoreBooleanFeature(v2, MULTI_AGENT, "true", MultiAgentLine(), f.multiAgent);
    r := RestoreCompatibilityV1AgentDepth(multiAgent, f.depth, f.installedDepth);
  }

  method RestoreRouteIn(text: string, before: RouteBefore, c: Codec) returns (r: Result<string>)
    ensures match RestoreRoute(Parse(text), before, c)
            case Ok(d) => r == Ok(Render(d))
            case Err(e) => r == Err(e)
  {
    hide Parse, Render, FindTop, RemoveComments, PutBack;
    var doc := new ConfigDocument(text);
    ParsedIsValid(text);
    RemoveManagedComment(doc);
    var base :- FindTop(doc.lines, BASE_URL, c);
    if base.None? {
      return Err("missing route");
    }
    PutLineBack(doc, base.value.index, before.base);
    var realtime :- FindTop(doc.lines, REALTIME, c);
    if realtime.None? {
      return Err("missing realtime route");
    }
    PutLineBack(doc, realtime.value.index, before.realtime);
    var rendered := doc.RenderText();
    r := Ok(rendered);
  }
}
