/**
 * What stands between a restore and the user's newer settings: every text that is restored, and every text that was
 * installed, holds the managed lines exactly as they were written, told from the lines alone.
 */
module Guards {
  import opened Common
  import opened Toml
  import opened ConfigLines
  import opened Document
  import opened ConfigEdit
  import opened RouteEdits
  import opened ConfigRoundTrip
  import opened Separation
  import opened EditTwins
  import opened UnterminatedCompatibility
  import opened InlineTableReads
  import InlineTable

  // ---- Values ----

  /**
   * A value is a string exactly when it is single-quoted, and then it is the text between the quotes, or
   * double-quoted and JSON reads it; white space and a comment around it do not matter.
   */
  lemma {:induction false} StringExactlyWhen(before: string, value: string, tail: string, c: Codec)
    requires Blank(before) && value != "" && InlineTable.Clean(value) && Trimmed(value) && InlineTable.IsTail(tail)
    ensures forall s :: DecodeString(before + value + tail, c) == Ok(s) <==>
      || value == "'" + s + "'"
      || (value[0] == '"' && value[|value| - 1] == '"' && c.json.parse(value) == Some(s))
  {
    hide InlineTable.Clean, IsSpace, Blank, InlineTable.IsTail, StripComment, TrimStart, TrimEnd, Trim;
    ScalarIs(before, value, tail);
    LoneQuote();
    assert |value| == 1 && value[0] == '\'' ==> value == "'";
    forall s
      ensures value == "'" + s + "'" <==>
        |value| >= 2 && value[0] == '\'' && value[|value| - 1] == '\'' && s == value[1..|value| - 1]
    {
      assert ("'" + s + "'")[1..|s| + 1] == s;
    }
  }

  lemma {:induction false} LoneQuote()
    ensures !InlineTable.Clean("'")
  {
    assert "'"[..0] == "";
  }

  // ---- Settings before the first table ----

  /** Line `i`, before the first table, is the only one there to set the key, and its value reads as this. */
  predicate TopIs(lines: seq<string>, key: string, i: nat, value: string, c: Codec) {
    && i < FirstTable(lines) && Assigned(lines[i], key).Some?
    && DecodeString(Assigned(lines[i], key).value, c) == Ok(value)
    && forall k :: 0 <= k < FirstTable(lines) && k != i ==> Assigned(lines[k], key).None?
  }

  /** No line before the first table sets the key. */
  predicate TopFree(lines: seq<string>, key: string) {
    forall k :: 0 <= k < FirstTable(lines) ==> Assigned(lines[k], key).None?
  }

  ghost predicate TopReads(lines: seq<string>, key: string, c: Codec) {
    TopFree(lines, key) || exists i, value :: TopIs(lines, key, i, value, c)
  }

  /** Reading a key before the first table: absent, read where its one line is, or an error. */
  lemma {:induction false} TopFound(lines: seq<string>, key: string, c: Codec)
    ensures FindTop(lines, key, c) == Ok(None) <==> TopFree(lines, key)
    ensures forall i: nat, value ::
      TopIs(lines, key, i, value, c) <==>
        i < |lines| && FindTop(lines, key, c) == Ok(Some(Assignment(lines[i], value, i)))
  {
    hide Assigned, FirstTable, DecodeString;
    var top := lines[..FirstTable(lines)];
    var hits := seq(|top|, i requires 0 <= i < |top| => Assigned(top[i], key).Some?);
    assert Matches(top, key) == Where(hits);
    forall k: nat | k < |top|
      ensures top[k] == lines[k] && hits[k] == Assigned(lines[k], key).Some?
    {
    }
    WhereNone(hits);
    if NoneOf(hits) {
      forall k | 0 <= k < FirstTable(lines)
        ensures Assigned(lines[k], key).None?
      {
        assert !hits[k];
      }
    }
    if |Where(hits)| == 1 {
      OneSetsIt(lines, key, hits, Where(hits)[0]);
    }
    forall i: nat, value
      ensures TopIs(lines, key, i, value, c) <==>
        i < |lines| && FindTop(lines, key, c) == Ok(Some(Assignment(lines[i], value, i)))
    {
      if TopIs(lines, key, i, value, c) {
        forall k | 0 <= k < |hits| && k != i
          ensures !hits[k]
        {
          assert Assigned(lines[k], key).None?;
        }
        WhereOnly(hits, i);
      }
    }
  }

  lemma {:induction false} OneSetsIt(lines: seq<string>, key: string, hits: seq<bool>, i: nat)
    requires |hits| == FirstTable(lines) && |Where(hits)| == 1 && i == Where(hits)[0]
    requires forall k: nat :: k < |hits| ==> hits[k] == Assigned(lines[k], key).Some?
    ensures i < FirstTable(lines) && Assigned(lines[i], key).Some?
    ensures forall k :: 0 <= k < FirstTable(lines) && k != i ==> Assigned(lines[k], key).None?
  {
    hide Assigned, FirstTable;
    WhereOne(hits);
    forall k | 0 <= k < FirstTable(lines) && k != i
      ensures Assigned(lines[k], key).None?
    {
      assert !hits[k];
    }
  }

  /** The key is set once, to this value, on a line that reads word for word. */
  ghost predicate TopReadsAs(lines: seq<string>, key: string, value: string, line: string, c: Codec) {
    exists i: nat :: TopIs(lines, key, i, value, c) && lines[i] == line
  }

  // ---- The check of an installed file ----

  /** The route as it was written: its URL, the realtime line word for word, the marker, and two keys that read. */
  ghost predicate RouteIntact(lines: seq<string>, url: string, c: Codec) {
    && (exists i :: TopIs(lines, BASE_URL, i, url, c))
    && TopReadsAs(lines, REALTIME, REALTIME_URL, REALTIME + " = " + c.quote(REALTIME_URL), c)
    && (exists i :: 0 <= i < |lines| && lines[i] == ROUTE_COMMENT)
    && TopReads(lines, PROVIDER, c) && TopReads(lines, CATALOG, c)
  }

  lemma {:induction false} TopReadsIs(lines: seq<string>, key: string, c: Codec)
    ensures FindTop(lines, key, c).Ok? <==> TopReads(lines, key, c)
  {
    hide Assigned, DecodeString, FirstTable, TopFree, TopIs;
    TopFound(lines, key, c);
    if FindTop(lines, key, c).Ok? && FindTop(lines, key, c).value.Some? {
      FoundLine(lines, key, c);
      var a := FindTop(lines, key, c).value.value;
      assert TopIs(lines, key, a.index, a.value, c);
    }
  }

  lemma {:induction false} FoundLine(lines: seq<string>, key: string, c: Codec)
    requires FindTop(lines, key, c).Ok? && FindTop(lines, key, c).value.Some?
    ensures var a := FindTop(lines, key, c).value.value; a.index < |lines| && a.line == lines[a.index]
  {
    hide Assigned, DecodeString, FirstTable;
  }

  /** A key found with this value, on the lines. */
  lemma {:induction false} FoundValue(lines: seq<string>, key: string, value: string, line: string, c: Codec)
    ensures (exists i :: TopIs(lines, key, i, value, c)) <==>
      FindTop(lines, key, c).Ok? && FindTop(lines, key, c).value.Some?
        && FindTop(lines, key, c).value.value.value == value
    ensures TopReadsAs(lines, key, value, line, c) <==>
      FindTop(lines, key, c).Ok? && FindTop(lines, key, c).value.Some?
        && FindTop(lines, key, c).value.value.value == value && FindTop(lines, key, c).value.value.line == line
  {
    hide Assigned, DecodeString, FirstTable, TopIs, FindTop;
    TopFound(lines, key, c);
    if FindTop(lines, key, c).Ok? && FindTop(lines, key, c).value.Some? {
      FoundLine(lines, key, c);
      var a := FindTop(lines, key, c).value.value;
      assert TopIs(lines, key, a.index, a.value, c);
    }
  }

  lemma {:induction false} RouteCheck(lines: seq<string>, j: Journal, c: Codec)
    ensures VerifyInstalledRoute(lines, j, c).Ok? <==>
      RouteIntact(lines, j.url, c) && (j.features.Some? ==> VerifyFeatures(lines, j.features.value, c.json).Ok?)
  {
    hide Assigned, DecodeString, FirstTable, TopIs, FindTop, TopReads, VerifyFeatures;
    TopReadsIs(lines, PROVIDER, c);
    TopReadsIs(lines, CATALOG, c);
    FoundValue(lines, BASE_URL, j.url, "", c);
    FoundValue(lines, REALTIME, REALTIME_URL, REALTIME + " = " + c.quote(REALTIME_URL), c);
    assert ROUTE_COMMENT in lines <==> exists i :: 0 <= i < |lines| && lines[i] == ROUTE_COMMENT;
  }

  /** Line `i` stands in the one table of this name, is the only one there to set the key, and reads word for word. */
  predicate TableHolds(lines: seq<string>, table: string, key: string, line: string, h: nat, i: nat) {
    && h < i < |lines| && IsTable(lines[h], table) && Assigned(lines[i], key).Some? && lines[i] == line
    && (forall k :: 0 <= k < |lines| && k != h ==> !IsTable(lines[k], table))
    && (forall k :: h < k <= i ==> !IsHeader(lines[k]))
    && forall k :: h < k < |lines| && k != i && (forall m :: h < m <= k ==> !IsHeader(lines[m])) ==>
         Assigned(lines[k], key).None?
  }

  ghost predicate Stands(lines: seq<string>, table: string, key: string, line: string) {
    exists h, i :: TableHolds(lines, table, key, line, h, i)
  }

  lemma {:induction false} ShownStands(lines: seq<string>, table: string, key: string, line: string)
    requires Shown(lines, table, key, line)
    ensures Stands(lines, table, key, line)
  {
    hide Assigned, IsTable, IsHeader, RawIn, FindTable;
    var range := FindTable(lines, table).value.value;
    var i :| range.header < i < range.end && lines[i] == line;
    TableBody(lines, table);
    OtherHeaders(lines, table);
    forall k | range.header < k < |lines| && k != i && (forall m :: range.header < m <= k ==> !IsHeader(lines[m]))
      ensures Assigned(lines[k], key).None?
    {
      TableReaches(lines, table, range.header, k);
      if Assigned(lines[k], key).Some? {
        RawOnce(lines, table, key, k, i);
      }
    }
    assert TableHolds(lines, table, key, line, range.header, i);
  }

  lemma {:induction false} OtherHeaders(lines: seq<string>, table: string)
    requires FindTable(lines, table).Ok? && FindTable(lines, table).value.Some?
    ensures forall k :: 0 <= k < |lines| && k != FindTable(lines, table).value.value.header ==>
      !IsTable(lines[k], table)
  {
    hide IsTable, FindTable;
    forall k | 0 <= k < |lines| && k != FindTable(lines, table).value.value.header
      ensures !IsTable(lines[k], table)
    {
      if IsTable(lines[k], table) {
        HeaderOnce(lines, table, k);
      }
    }
  }

  /** No line of a table of this name sets the key. */
  predicate NoneIn(lines: seq<string>, table: string, key: string) {
    forall h, k :: 0 <= h < k < |lines| && IsTable(lines[h], table) && (forall m :: h < m <= k ==> !IsHeader(lines[m]))
      ==> Assigned(lines[k], key).None?
  }

  /** The setting that has three forms has no other form: no table beside a line, no line beside a table. */
  predicate OneForm(lines: seq<string>, v2Table: bool) {
    if v2Table then NoneIn(lines, "features", "multi_agent_v2")
    else forall k :: 0 <= k < |lines| ==> !IsTable(lines[k], "features.multi_agent_v2")
  }

  lemma {:induction false} NoTable(lines: seq<string>, table: string)
    ensures FindTable(lines, table) == Ok(None) <==> forall k :: 0 <= k < |lines| ==> !IsTable(lines[k], table)
  {
    hide IsTable, FirstTable;
    var hits := seq(|lines|, i requires 0 <= i < |lines| => IsTable(lines[i], table));
    assert Headers(lines, table) == Where(hits);
    WhereNone(hits);
    assert forall k :: 0 <= k < |lines| ==> hits[k] == IsTable(lines[k], table);
  }

  lemma {:induction false} NothingThere(lines: seq<string>, table: string, key: string)
    requires RawIn(lines, table, key).Ok? && RawIn(lines, table, key).value.at.None?
    ensures NoneIn(lines, table, key)
  {
    hide Assigned, IsTable, IsHeader, FindTable, RawIn;
    RawTableOk(lines, table, key);
    forall h, k | 0 <= h < k < |lines| && IsTable(lines[h], table) && (forall m :: h < m <= k ==> !IsHeader(lines[m]))
      ensures Assigned(lines[k], key).None?
    {
      TableReaches(lines, table, h, k);
      if Assigned(lines[k], key).Some? {
        BodySets(lines, table, key, k);
      }
    }
  }

  lemma {:induction false} BodySets(lines: seq<string>, table: string, key: string, k: nat)
    requires RawIn(lines, table, key).Ok? && FindTable(lines, table).Ok? && FindTable(lines, table).value.Some?
    requires FindTable(lines, table).value.value.header < k < FindTable(lines, table).value.value.end
    requires Assigned(lines[k], key).Some?
    ensures RawIn(lines, table, key).value.at.Some?
  {
    hide Assigned, FindTable;
    var range := FindTable(lines, table).value.value;
    var body := lines[range.header + 1..range.end];
    assert body[k - range.header - 1] == lines[k];
    MatchThere(body, key, range.header + 1, k - range.header - 1);
  }

  lemma {:induction false} FormIs(lines: seq<string>, f: Features, json: InlineTable.Json)
    requires VerifyFeatures(lines, f, json).Ok?
    ensures OneForm(lines, f.v2.v2Table && !f.v2.inline)
  {
    hide RawIn, Scalar, FindTable, InlineTable.Parse, ManagedV2Line, VerifyFeature, VerifyDepth, NoneIn;
    NoTable(lines, V2_TABLE);
    if f.v2.v2Table && !f.v2.inline {
      NothingThere(lines, FEATURES, MULTI_AGENT_V2);
    } else {
      RawKind(lines, V2_TABLE, ENABLED);
    }
  }

  /**
   * The managed line of every Compatibility V1 setting, word for word, in its table and nowhere
       else in it, and no other
   * form of the setting that has three.
   */
  ghost predicate FeaturesIntact(lines: seq<string>, f: Features, json: InlineTable.Json) {
    && Stands(lines, "features", "multi_agent", "multi_agent" + " = " + ("true" + " " + MULTI_AGENT_NOTE))
    && Stands(lines, "agents", "max_depth", "max_depth" + " = " + (Decimal(f.installedDepth) + " " + DEPTH_NOTE))
    && ManagedV2Line(f.v2, json).Ok? && OneForm(lines, f.v2.v2Table && !f.v2.inline)
    && (if f.v2.inline then Stands(lines, "features", "multi_agent_v2", ManagedV2Line(f.v2, json).value)
        else if f.v2.v2Table then
          Stands(lines, "features.multi_agent_v2", "enabled", "enabled" + " = " + ("false" + " " + V2_NOTE))
        else Stands(lines, "features", "multi_agent_v2", "multi_agent_v2" + " = " + ("false" + " " + V2_NOTE)))
  }

  lemma {:induction false} FeatureCheck(lines: seq<string>, f: Features, json: InlineTable.Json)
    requires VerifyFeatures(lines, f, json).Ok?
    ensures FeaturesIntact(lines, f, json)
  {
    hide Shown, Stands, VerifyFeatures, Decimal, OneForm;
    FormIs(lines, f, json);
    AllShown(lines, f, json);
    ManagedIs(f.v2, json);
    ShownStands(lines, FEATURES, MULTI_AGENT, MultiAgentLine());
    ShownStands(lines, V2TableOf(f), V2KeyOf(f), ManagedV2Line(f.v2, json).value);
    ShownStands(lines, AGENTS, MAX_DEPTH, DepthLine(f.installedDepth));
  }

  /**
   * Whatever text is restored, its route is the one of the journal: the URL at the top decodes to the recorded one, the
   * realtime line and, in Compatibility V1, each managed line read word for word, and the marker is there. A text in
   * which the user has changed any of them is refused.
   */
  lemma {:induction false} RestoreRefusesNewer(text: string, j: Journal, c: Codec)
    requires Restore(text, j, c).Ok?
    ensures RouteIntact(SplitLines(text), j.url, c)
    ensures j.features.Some? ==> FeaturesIntact(SplitLines(text), j.features.value, c.json)
  {
    hide SplitLines, VerifyInstalledRoute, RestoreRoute, RestoreV2, RestoreFeature, RestoreDepth, Parse, Render;
    hide RouteIntact, FeaturesIntact, VerifyFeatures;
    RouteCheck(SplitLines(text), j, c);
    if j.features.Some? {
      FeatureCheck(SplitLines(text), j.features.value, c.json);
    }
  }

  // ---- What an installation writes and records ----

  /** The setting as it stood at the top of the file. */
  predicate Records(lines: seq<string>, key: string, recorded: Option<Assignment>, c: Codec) {
    match recorded
    case None => TopFree(lines, key)
    case Some(a) => a.index < |lines| && a.line == lines[a.index] && TopIs(lines, key, a.index, a.value, c)
  }

  /** What an installation records is what stood in the file. */
  lemma {:induction false} InstallRecords(text: string, url: string, compatibility: bool, replace: bool,
          replaceRealtime: bool, c: Codec)
    requires Install(text, url, compatibility, replace, replaceRealtime, c).Ok?
    ensures var j := Install(text, url, compatibility, replace, replaceRealtime, c).value.1;
      && j.url == url && (j.features.Some? <==> compatibility)
      && Records(SplitLines(text), BASE_URL, j.before.base, c)
      && Records(SplitLines(text), REALTIME, j.before.realtime, c)
      && (j.before.base.Some? ==> replace)
      && (j.before.realtime.Some? && j.before.realtime.value.value != REALTIME_URL ==> replaceRealtime)
  {
    hide Parse, Render, SplitLines, PlaceRealtime, RemoveComments, FindTop, InstallFeatures, TopIs, TopFree;
    SplitLinesAgree(text);
    var lines := SplitLines(text);
    TopFound(lines, BASE_URL, c);
    TopFound(lines, REALTIME, c);
    if FindTop(lines, BASE_URL, c).Ok? && FindTop(lines, BASE_URL, c).value.Some? {
      FoundLine(lines, BASE_URL, c);
    }
    if FindTop(lines, REALTIME, c).Ok? && FindTop(lines, REALTIME, c).value.Some? {
      FoundLine(lines, REALTIME, c);
    }
  }

  /** The installed file carries the URL it was given, and every managed line word for word. */
  lemma {:induction false} InstallWrites(text: string, url: string, compatibility: bool, replace: bool,
          replaceRealtime: bool, c: Codec)
    requires Terminated(text) && NoMarkers(SplitLines(text)) && QuotedWell(c, url) && QuotedWell(c, REALTIME_URL)
    requires Install(text, url, compatibility, replace, replaceRealtime, c).Ok?
    ensures var (installed, j) := Install(text, url, compatibility, replace, replaceRealtime, c).value;
      && RouteIntact(SplitLines(installed), url, c)
      && (compatibility ==> j.features.Some? && FeaturesIntact(SplitLines(installed), j.features.value, c.json))
  {
    hide Parse, Render, SplitLines, Install, Terminated, NoMarkers, QuotedWell, VerifyInstalledRoute, RouteIntact;
    hide FeaturesIntact, Restore, VerifyFeatures, LeavesGap, InstallRoute, Records;
    var (installed, j) := Install(text, url, compatibility, replace, replaceRealtime, c).value;
    InstallRecords(text, url, compatibility, replace, replaceRealtime, c);
    if compatibility {
      CompatibilityRoundTrip(text, url, replace, replaceRealtime, c);
      FeatureChecked(SplitLines(installed), j, c);
    } else {
      NativeRoundTrip(text, url, replace, replaceRealtime, c);
      RouteCheck(SplitLines(installed), j, c);
    }
  }

  lemma {:induction false} FeatureChecked(lines: seq<string>, j: Journal, c: Codec)
    requires VerifyInstalledRoute(lines, j, c).Ok? && j.features.Some?
    ensures RouteIntact(lines, j.url, c) && FeaturesIntact(lines, j.features.value, c.json)
  {
    hide VerifyInstalledRoute, RouteIntact, FeaturesIntact, VerifyFeatures;
    RouteCheck(lines, j, c);
    FeatureCheck(lines, j.features.value, c.json);
  }

  // ---- The check of a restored file ----

  /** The same value as recorded, or absent as recorded. */
  ghost predicate BackAs(lines: seq<string>, key: string, recorded: Option<Assignment>, c: Codec) {
    match recorded
    case None => TopFree(lines, key)
    case Some(a) => exists i :: TopIs(lines, key, i, a.value, c)
  }

  /** The same value on the same line, word for word. */
  ghost predicate BackVerbatim(lines: seq<string>, key: string, recorded: Option<Assignment>, c: Codec) {
    match recorded
    case None => TopFree(lines, key)
    case Some(a) => TopReadsAs(lines, key, a.value, a.line, c)
  }

  lemma {:induction false} BackIs(lines: seq<string>, key: string, recorded: Option<Assignment>, c: Codec)
    ensures BackAs(lines, key, recorded, c) <==>
      FindTop(lines, key, c).Ok? && SameValue(FindTop(lines, key, c).value, recorded)
    ensures BackVerbatim(lines, key, recorded, c) <==>
      FindTop(lines, key, c).Ok? && SameValue(FindTop(lines, key, c).value, recorded)
        && SameLine(FindTop(lines, key, c).value, recorded)
  {
    hide TopIs, TopFree, FindTop;
    TopFound(lines, key, c);
    if recorded.Some? {
      FoundValue(lines, key, recorded.value.value, recorded.value.line, c);
    }
  }

  /**
   * The user's own route settings: the route key with the recorded value, the realtime key with the recorded value on
   * the recorded line, two keys that read, and no managed comment anywhere.
   */
  ghost predicate RouteIsBack(lines: seq<string>, before: RouteBefore, c: Codec) {
    && BackAs(lines, BASE_URL, before.base, c) && BackVerbatim(lines, REALTIME, before.realtime, c)
    && TopReads(lines, PROVIDER, c) && TopReads(lines, CATALOG, c)
    && forall i :: 0 <= i < |lines| ==> lines[i] != OLD_COMMENT && lines[i] != ROUTE_COMMENT
  }

  /** The check of a disconnected file passes only when the user's route is back, and a native one exactly then. */
  lemma {:induction false} RestoredCheckExactlyWhen(lines: seq<string>, j: Journal, c: Codec)
    ensures VerifyRestoredRoute(lines, j, c).Ok? ==> RouteIsBack(lines, j.before, c)
    ensures j.features.None? ==> (VerifyRestoredRoute(lines, j, c).Ok? <==> RouteIsBack(lines, j.before, c))
  {
    hide FindTop, TopReads, BackAs, BackVerbatim, SameValue, SameLine, BooleanIn, FindV2, FindDepth, OLD_COMMENT;
    BackIs(lines, BASE_URL, j.before.base, c);
    BackIs(lines, REALTIME, j.before.realtime, c);
    TopReadsIs(lines, PROVIDER, c);
    TopReadsIs(lines, CATALOG, c);
  }

  /** A setting of a table is back on its recorded line, or absent as recorded. */
  ghost predicate SettingBack(lines: seq<string>, table: string, key: string, recorded: Option<Assignment>) {
    match recorded
    case None => !exists line :: Stands(lines, table, key, line)
    case Some(a) => Stands(lines, table, key, a.line)
  }

  lemma {:induction false} StandsFound(lines: seq<string>, table: string, key: string, line: string)
    requires RawIn(lines, table, key).Ok?
    ensures Stands(lines, table, key, line) <==>
      RawIn(lines, table, key).value.at.Some? && RawIn(lines, table, key).value.at.value.line == line
  {
    hide Assigned, IsTable, IsHeader, RawIn, FindTable, Shown, TableHolds, BodyShows;
    if RawIn(lines, table, key).value.at.Some? && RawIn(lines, table, key).value.at.value.line == line {
      FoundShows(lines, table, key, line);
      ShownStands(lines, table, key, line);
    }
    if Stands(lines, table, key, line) {
      var h, i :| TableHolds(lines, table, key, line, h, i);
      HeldFound(lines, table, key, line, h, i);
    }
  }

  lemma {:induction false} HeldFound(lines: seq<string>, table: string, key: string, line: string, h: nat, i: nat)
    requires RawIn(lines, table, key).Ok? && TableHolds(lines, table, key, line, h, i)
    ensures RawIn(lines, table, key).value.at.Some? && RawIn(lines, table, key).value.at.value.line == line
  {
    hide Assigned, IsTable, IsHeader, FindTable;
    RawTableOk(lines, table, key);
    TableReaches(lines, table, h, i);
    var range := FindTable(lines, table).value.value;
    var body := lines[range.header + 1..range.end];
    assert body[i - range.header - 1] == lines[i];
    MatchThere(body, key, range.header + 1, i - range.header - 1);
  }

  lemma {:induction false} RawTableOk(lines: seq<string>, table: string, key: string)
    requires RawIn(lines, table, key).Ok?
    ensures FindTable(lines, table).Ok?
  {
    hide FindTable;
  }

  lemma {:induction false} MatchThere(body: seq<string>, key: string, offset: nat, i: nat)
    requires OnlyMatch(body, key, offset).Ok? && i < |body| && Assigned(body[i], key).Some?
    ensures OnlyMatch(body, key, offset).value.Some? && OnlyMatch(body, key, offset).value.value.line == body[i]
  {
    hide Assigned;
    var hits := seq(|body|, k requires 0 <= k < |body| => Assigned(body[k], key).Some?);
    assert Matches(body, key) == Where(hits) && hits[i];
    WhereNone(hits);
    WhereOne(hits);
  }

  /** Each setting read by the features, as the lines have it. */
  lemma {:induction false} SettingFound(lines: seq<string>, table: string, key: string)
    requires RawIn(lines, table, key).Ok?
    ensures forall recorded ::
      SettingBack(lines, table, key, recorded) <==> SameLine(RawIn(lines, table, key).value.at, recorded)
  {
    hide RawIn, Stands;
    forall line
      ensures Stands(lines, table, key, line) <==>
        RawIn(lines, table, key).value.at.Some? && RawIn(lines, table, key).value.at.value.line == line
    {
      StandsFound(lines, table, key, line);
    }
    var at := RawIn(lines, table, key).value.at;
    assert at.Some? ==> Stands(lines, table, key, at.value.line);
  }

  /** The setting that has three forms is read in one place and absent in the other. */
  lemma {:induction false} V2Found(lines: seq<string>, json: InlineTable.Json)
    requires FindV2(lines, json).Ok?
    ensures RawIn(lines, FEATURES, MULTI_AGENT_V2).Ok? && RawIn(lines, V2_TABLE, ENABLED).Ok?
    ensures var v2 := FindV2(lines, json).value;
      && SameLine(RawIn(lines, FEATURES, MULTI_AGENT_V2).value.at, if v2.v2Table then None else v2.at)
      && SameLine(RawIn(lines, V2_TABLE, ENABLED).value.at, if v2.v2Table then v2.at else None)
  {
    hide FindTable, Scalar, IsBoolean, OnlyMatch, InlineTable.Parse, InlineTable.ValueOf;
  }

  /** A disconnected file that passes the check holds the user's Compatibility V1 settings as they were recorded. */
  lemma {:induction false} FeaturesAreBack(lines: seq<string>, j: Journal, c: Codec)
    requires VerifyRestoredRoute(lines, j, c).Ok? && j.features.Some?
    ensures var f := j.features.value;
      && SettingBack(lines, FEATURES, MULTI_AGENT, f.multiAgent.at)
      && SettingBack(lines, FEATURES, MULTI_AGENT_V2, if f.v2.v2Table then None else f.v2.at)
      && SettingBack(lines, V2_TABLE, ENABLED, if f.v2.v2Table then f.v2.at else None)
      && SettingBack(lines, AGENTS, MAX_DEPTH, f.depth.at)
  {
    hide FindTop, RawIn, Stands, FindV2, Scalar, SettingBack;
    V2Found(lines, c.json);
    SettingFound(lines, FEATURES, MULTI_AGENT);
    SettingFound(lines, FEATURES, MULTI_AGENT_V2);
    SettingFound(lines, V2_TABLE, ENABLED);
    SettingFound(lines, AGENTS, MAX_DEPTH);
  }

  // ---- The user's own settings ----

  /** The depth a line of the agents table sets, where it sets one. */
  function DepthOn(line: string): Option<nat> {
    match Assigned(line, "max_depth")
    case None => None
    case Some(raw) =>
      var digits := WithoutUnderscores(Scalar(raw));
      if IsDigits(digits) then Some(NumberOf(digits)) else None
  }

  /** The installed depth is the one of the user's line, but at least two. */
  predicate RaisedTo(installed: nat, line: string) {
    && DepthOn(line).Some? && installed >= 2 && installed >= DepthOn(line).value
    && (installed == 2 || installed == DepthOn(line).value)
  }

  lemma {:induction false} FoundAssigns(body: seq<string>, key: string, offset: nat)
    requires OnlyMatch(body, key, offset).Ok? && OnlyMatch(body, key, offset).value.Some?
    ensures var a := OnlyMatch(body, key, offset).value.value; Assigned(a.line, key) == Some(a.value)
  {
    hide Assigned;
    var hits := seq(|body|, k requires 0 <= k < |body| => Assigned(body[k], key).Some?);
    assert Matches(body, key) == Where(hits);
    WhereOne(hits);
  }

  lemma {:induction false} DepthIsRead(lines: seq<string>)
    requires FindDepth(lines).Ok?
    ensures var p := FindDepth(lines).value;
      && (p.at.None? ==> InstalledDepth(p) == 2)
      && (p.at.Some? ==> RaisedTo(InstalledDepth(p), p.at.value.line))
  {
    hide Assigned, FindTable, Scalar, WithoutUnderscores, NumberOf, OnlyMatch;
    var range := FindTable(lines, AGENTS);
    if range.Ok? && range.value.Some? {
      var body := lines[range.value.value.header + 1..range.value.value.end];
      if OnlyMatch(body, MAX_DEPTH, range.value.value.header + 1).value.Some? {
        FoundAssigns(body, MAX_DEPTH, range.value.value.header + 1);
      }
    }
  }

  /**
   * What Compatibility V1 records is what stood in the user's file, and the depth it installs is the user's own where
   * that is larger than two.
   */
  lemma {:induction false} InstallKeepsDepth(text: string, url: string, replace: bool, replaceRealtime: bool, c: Codec)
    requires Terminated(text) && NoMarkers(SplitLines(text)) && QuotedWell(c, url) && QuotedWell(c, REALTIME_URL)
    requires Install(text, url, true, replace, replaceRealtime, c).Ok?
    ensures var f, lines := Install(text, url, true, replace, replaceRealtime, c).value.1.features.value,
        SplitLines(text);
      && SettingBack(lines, "features", "multi_agent", f.multiAgent.at)
      && SettingBack(lines, "features", "multi_agent_v2", if f.v2.v2Table then None else f.v2.at)
      && SettingBack(lines, "features.multi_agent_v2", "enabled", if f.v2.v2Table then f.v2.at else None)
      && ((forall line :: !Stands(lines, "agents", "max_depth", line)) ==> f.installedDepth == 2)
      && (forall line :: Stands(lines, "agents", "max_depth", line) ==>
            RaisedTo(f.installedDepth, line))
  {
    hide Parse, Render, SplitLines, Terminated, NoMarkers, QuotedWell, Install, Stands, RaisedTo;
    RecordedAsItStood(text, url, replace, replaceRealtime, c);
    InstalledDepthIs(text, url, replace, replaceRealtime, c);
    forall line, line' | Stands(SplitLines(text), AGENTS, MAX_DEPTH, line) &&
        Stands(SplitLines(text), AGENTS, MAX_DEPTH, line')
      ensures line == line'
    {
      StandsOnce(SplitLines(text), AGENTS, MAX_DEPTH, line, line');
    }
  }

  lemma {:induction false} StandsOnce(lines: seq<string>, table: string, key: string, line: string, line': string)
    requires Stands(lines, table, key, line) && Stands(lines, table, key, line')
    ensures line == line'
  {
    hide Assigned, IsTable, IsHeader;
    var h, i :| TableHolds(lines, table, key, line, h, i);
    var h', i' :| TableHolds(lines, table, key, line', h', i');
    assert h == h';
    assert i == i';
  }

  lemma {:induction false} RecordedAsItStood(text: string, url: string, replace: bool, replaceRealtime: bool, c: Codec)
    requires Terminated(text) && NoMarkers(SplitLines(text)) && QuotedWell(c, url) && QuotedWell(c, REALTIME_URL)
    requires Install(text, url, true, replace, replaceRealtime, c).Ok?
    ensures Install(text, url, true, replace, replaceRealtime, c).value.1.features.Some?
    ensures var f, lines := Install(text, url, true, replace, replaceRealtime, c).value.1.features.value,
        SplitLines(text);
      && SettingBack(lines, FEATURES, MULTI_AGENT, f.multiAgent.at)
      && SettingBack(lines, FEATURES, MULTI_AGENT_V2, if f.v2.v2Table then None else f.v2.at)
      && SettingBack(lines, V2_TABLE, ENABLED, if f.v2.v2Table then f.v2.at else None)
      && SettingBack(lines, AGENTS, MAX_DEPTH, f.depth.at)
  {
    hide Parse, Render, SplitLines, Terminated, NoMarkers, QuotedWell, Restore, VerifyRestoredRoute, Install;
    hide VerifyInstalledRoute, SettingBack, RaisedTo;
    CompatibilitySeparates(text, url, replace, replaceRealtime, c);
    InstalledDepthIs(text, url, replace, replaceRealtime, c);
    var j := Install(text, url, true, replace, replaceRealtime, c).value.1;
    FeaturesAreBack(SplitLines(text), j.(active := false), c);
  }

  lemma {:induction false} InstalledDepthIs(text: string, url: string, replace: bool, replaceRealtime: bool, c: Codec)
    requires Install(text, url, true, replace, replaceRealtime, c).Ok?
    ensures Install(text, url, true, replace, replaceRealtime, c).value.1.features.Some?
    ensures var f := Install(text, url, true, replace, replaceRealtime, c).value.1.features.value;
      && (f.depth.at.None? ==> f.installedDepth == 2)
      && (f.depth.at.Some? ==> RaisedTo(f.installedDepth, f.depth.at.value.line))
  {
    hide InstallRoute, Parse, Render, FindDepth, DepthOn, BooleanIn, FindV2, InstalledDepth, SetFeature, SetV2;
    hide SetDepth, LastIsText;
    var routed := Render(InstallRoute(Parse(text), url, replace, replaceRealtime, c).value.0);
    DepthIsRead(Parse(routed).lines);
  }
}
