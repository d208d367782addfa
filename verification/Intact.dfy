/**
 * The other half of the guards: a file that holds the managed lines as they were written passes the check,
     whatever else
 * the user has changed in it.
 */
module Intact {
  import opened Common
  import opened Toml
  import opened ConfigLines
  import opened Document
  import opened ConfigEdit
  import opened Tracking
  import opened BodyEdits
  import opened FeatureLines
  import opened FeaturePlan
  import opened V2Inline
  import opened UnterminatedCompatibility
  import opened Guards
  import InlineTable

  /** What an installation records: a depth that reads, and for an inline setting a line that reads as one. */
  ghost predicate Recorded(f: Features, json: InlineTable.Json) {
    && 1 <= f.installedDepth <= MAX_SAFE
    && (f.v2.inline ==>
          && f.v2.at.Some? && Unbroken(f.v2.at.value.line)
          && exists value :: InlineLine(f.v2.at.value.line, value, json))
  }

  /** A line that stands in its table is found there. */
  lemma {:induction false} HeldRaw(lines: seq<string>, table: string, key: string, line: string)
    requires Stands(lines, table, key, line)
    ensures RawIn(lines, table, key).Ok? && FindTable(lines, table).Ok? && FindTable(lines, table).value.Some?
    ensures var r := RawIn(lines, table, key).value;
      && r.at.Some? && r.at.value.line == line && Assigned(line, key) == Some(r.at.value.value)
      && r.v2Table == (table == V2_TABLE) && !r.inline
  {
    hide Assigned, TableHolds, FindTable, OnlyMatch;
    var h: nat, i: nat :| TableHolds(lines, table, key, line, h, i);
    HeldFinds(lines, table, key, line, h, i);
  }

  lemma {:induction false} HeldFinds(lines: seq<string>, table: string, key: string, line: string, h: nat, i: nat)
    requires TableHolds(lines, table, key, line, h, i)
    ensures FindTable(lines, table).Ok? && FindTable(lines, table).value.Some? && Assigned(line, key).Some?
    ensures var range := FindTable(lines, table).value.value;
      OnlyMatch(lines[range.header + 1..range.end], key, range.header + 1) ==
        Ok(Some(Assignment(line, Assigned(line, key).value, i)))
  {
    hide Assigned, IsTable, IsHeader, FindTable, OnlyMatch;
    OneTable(lines, table, h);
    TableReaches(lines, table, h, i);
    TableBody(lines, table);
    var end := FindTable(lines, table).value.value.end;
    OneInBody(lines, table, key, line, h, i, end);
    OneMatch(lines[h + 1..end], key, h + 1, i - h - 1);
    assert lines[h + 1..end][i - h - 1] == line;
  }

  lemma {:induction false} OneInBody(lines: seq<string>, table: string, key: string, line: string, h: nat, i: nat,
          end: nat)
    requires TableHolds(lines, table, key, line, h, i) && i < end <= |lines|
    requires forall m :: h < m < end ==> !IsHeader(lines[m])
    ensures var body := lines[h + 1..end];
      forall k: nat :: k < |body| ==> (Assigned(body[k], key).Some? <==> k == i - h - 1)
  {
    hide Assigned, IsTable, IsHeader;
    var body := lines[h + 1..end];
    forall k: nat | k < |body|
      ensures Assigned(body[k], key).Some? <==> k == i - h - 1
    {
      assert body[k] == lines[h + 1 + k];
    }
  }

  lemma {:induction false} OneTable(lines: seq<string>, table: string, h: nat)
    requires h < |lines| && IsTable(lines[h], table)
    requires forall k :: 0 <= k < |lines| && k != h ==> !IsTable(lines[k], table)
    ensures FindTable(lines, table).Ok? && FindTable(lines, table).value.Some?
    ensures FindTable(lines, table).value.value.header == h
  {
    hide IsTable, FirstTable;
    var hits := seq(|lines|, i requires 0 <= i < |lines| => IsTable(lines[i], table));
    assert Headers(lines, table) == Where(hits);
    WhereOnly(hits, h);
  }

  lemma {:induction false} OneMatch(body: seq<string>, key: string, offset: nat, i: nat)
    requires i < |body|
    requires forall k: nat :: k < |body| ==> (Assigned(body[k], key).Some? <==> k == i)
    ensures OnlyMatch(body, key, offset) == Ok(Some(Assignment(body[i], Assigned(body[i], key).value, offset + i)))
  {
    hide Assigned;
    var hits := seq(|body|, k requires 0 <= k < |body| => Assigned(body[k], key).Some?);
    assert Matches(body, key) == Where(hits);
    WhereOnly(hits, i);
  }

  lemma {:induction false} NoMatch(body: seq<string>, key: string, offset: nat)
    requires forall k: nat :: k < |body| ==> Assigned(body[k], key).None?
    ensures OnlyMatch(body, key, offset) == Ok(None)
  {
    hide Assigned;
    var hits := seq(|body|, k requires 0 <= k < |body| => Assigned(body[k], key).Some?);
    assert Matches(body, key) == Where(hits);
    WhereNone(hits);
  }

  /** A key no line of a table sets is found absent. */
  lemma {:induction false} NoneFound(lines: seq<string>, table: string, key: string)
    requires FindTable(lines, table).Ok? && NoneIn(lines, table, key)
    ensures RawIn(lines, table, key).Ok? && RawIn(lines, table, key).value.at.None?
  {
    hide Assigned, IsTable, IsHeader, FindTable, OnlyMatch;
    if FindTable(lines, table).value.Some? {
      TableBody(lines, table);
      var range := FindTable(lines, table).value.value;
      var body := lines[range.header + 1..range.end];
      forall k: nat | k < |body|
        ensures Assigned(body[k], key).None?
      {
        assert body[k] == lines[range.header + 1 + k];
      }
      NoMatch(body, key, range.header + 1);
    }
  }

  lemma {:induction false} BooleanHeld(lines: seq<string>, table: string, key: string, word: string, line: string)
    requires Stands(lines, table, key, line) && SetsTo(line, key, word) && IsBoolean(word)
    ensures BooleanIn(lines, table, key).Ok? && Has(BooleanIn(lines, table, key).value, word, line)
  {
    hide RawIn, FindTable, Stands, Scalar, IsBoolean, Assigned, Writable, IsBlank, IsManagedComment, AfterEquals;
    HeldRaw(lines, table, key, line);
  }

  lemma {:induction false} DepthHeld(lines: seq<string>, depth: nat)
    requires Stands(lines, AGENTS, MAX_DEPTH, DepthLine(depth)) && 1 <= depth <= MAX_SAFE
    ensures VerifyDepth(lines, depth).Ok?
  {
    hide RawIn, FindTable, Stands, Scalar, IsDepth, Assigned, DepthLine, Decimal, WithoutUnderscores, Writable;
    hide AfterEquals, IsBlank, IsManagedComment;
    HeldRaw(lines, AGENTS, MAX_DEPTH, DepthLine(depth));
    DepthLineReads(depth);
  }

  lemma {:induction false} V2Held(lines: seq<string>, f: Features, json: InlineTable.Json)
    requires FeaturesIntact(lines, f, json) && Recorded(f, json)
    ensures VerifyV2(lines, f.v2, json).Ok?
  {
    if f.v2.inline {
      InlineHeld(lines, f, json);
    } else if f.v2.v2Table {
      TableHeld(lines, f, json);
    } else {
      ScalarHeld(lines, f, json);
    }
  }

  lemma {:induction false} ScalarHeld(lines: seq<string>, f: Features, json: InlineTable.Json)
    requires FeaturesIntact(lines, f, json) && !f.v2.inline && !f.v2.v2Table
    ensures VerifyV2(lines, f.v2, json).Ok?
  {
    hide RawIn, FindTable, Stands, Scalar, Assigned, V2Line, Writable, AfterEquals, IsBlank, IsManagedComment;
    hide InlineTable.Parse, ManagedV2Line;
    FeatureLinesRead();
    FeatureNames();
    NoTable(lines, V2_TABLE);
    V2LineIs();
    HeldRaw(lines, FEATURES, MULTI_AGENT_V2, V2Line());
  }

  lemma {:induction false} V2LineIs()
    ensures V2Line() == "multi_agent_v2" + " = " + ("false" + " " + V2_NOTE)
    ensures V2TableLine() == "enabled" + " = " + ("false" + " " + V2_NOTE)
    ensures MultiAgentLine() == "multi_agent" + " = " + ("true" + " " + MULTI_AGENT_NOTE)
  {
  }

  lemma {:induction false} TableHeld(lines: seq<string>, f: Features, json: InlineTable.Json)
    requires FeaturesIntact(lines, f, json) && !f.v2.inline && f.v2.v2Table
    ensures VerifyV2(lines, f.v2, json).Ok?
  {
    hide RawIn, FindTable, Stands, Scalar, Assigned, V2TableLine, Writable, AfterEquals, IsBlank, IsManagedComment;
    hide InlineTable.Parse, ManagedV2Line, NoneIn;
    FeatureLinesRead();
    FeatureNames();
    V2LineIs();
    HeldRaw(lines, FEATURES, MULTI_AGENT, MultiAgentLine());
    NoneFound(lines, FEATURES, MULTI_AGENT_V2);
    BooleanHeld(lines, V2_TABLE, ENABLED, "false", V2TableLine());
  }

  lemma {:induction false} InlineHeld(lines: seq<string>, f: Features, json: InlineTable.Json)
    requires FeaturesIntact(lines, f, json) && Recorded(f, json) && f.v2.inline
    ensures VerifyV2(lines, f.v2, json).Ok?
  {
    hide RawIn, FindTable, Stands, Scalar, Assigned, AfterEquals, IsBlank, IsManagedComment, IsBoolean;
    hide InlineTable.Parse, ManagedV2Line, Unbroken, IsHeader, Settable, InlineTable.ValueOf;
    FeatureNames();
    NoTable(lines, V2_TABLE);
    var value :| InlineLine(f.v2.at.value.line, value, json);
    var m, v := InlineManaged(f.v2.at.value.line, value, json, f.v2);
    HeldRaw(lines, FEATURES, MULTI_AGENT_V2, m);
  }

  /** For a recorded set of features, their check passes exactly when their lines are intact. */
  lemma {:induction false} FeatureCheckExactlyWhen(lines: seq<string>, f: Features, json: InlineTable.Json)
    requires Recorded(f, json)
    ensures VerifyFeatures(lines, f, json).Ok? <==> FeaturesIntact(lines, f, json)
  {
    hide VerifyV2, VerifyDepth, Stands, Recorded, ManagedV2Line, OneForm;
    if VerifyFeatures(lines, f, json).Ok? {
      FeatureCheck(lines, f, json);
    }
    if FeaturesIntact(lines, f, json) {
      AllHeld(lines, f, json);
    }
  }

  lemma {:induction false} AllHeld(lines: seq<string>, f: Features, json: InlineTable.Json)
    requires FeaturesIntact(lines, f, json) && Recorded(f, json)
    ensures VerifyFeatures(lines, f, json).Ok?
  {
    hide VerifyV2, VerifyDepth, Stands, ManagedV2Line, OneForm, MultiAgentLine, BooleanIn, SetsTo;
    V2LineIs();
    FeatureLinesRead();
    BooleanHeld(lines, FEATURES, MULTI_AGENT, "true", MultiAgentLine());
    V2Held(lines, f, json);
    DepthHeld(lines, f.installedDepth);
  }

  /**
   * In either protocol the check of an installed file passes if and only if the file holds the route and every managed
   * line as they were written.
   */
  lemma {:induction false} CheckExactlyWhen(lines: seq<string>, j: Journal, c: Codec)
    requires j.features.Some? ==> Recorded(j.features.value, c.json)
    ensures VerifyInstalledRoute(lines, j, c).Ok? <==>
      RouteIntact(lines, j.url, c) && (j.features.Some? ==> FeaturesIntact(lines, j.features.value, c.json))
  {
    hide VerifyInstalledRoute, RouteIntact, FeaturesIntact, Recorded, VerifyFeatures;
    RouteCheck(lines, j, c);
    if j.features.Some? {
      FeatureCheckExactlyWhen(lines, j.features.value, c.json);
    }
  }

  // ---- What an installation records is so recorded ----

  lemma {:induction false} ParsedUnbroken(text: string)
    ensures var d := ParseBody(text); forall i :: 0 <= i < |d.lines| ==> Unbroken(d.lines[i])
  {
    if text != "" {
      if FirstBreak(text) == |text| {
        ParsePlain(text);
      } else {
        var line, b, rest := FirstLine(text);
        ParsedUnbroken(rest);
        ParseLine(line, b, rest);
      }
    }
  }

  lemma {:induction false} V2IsRecorded(lines: seq<string>, json: InlineTable.Json)
    requires FindV2(lines, json).Ok? && FindV2(lines, json).value.inline
    requires forall i :: 0 <= i < |lines| ==> Unbroken(lines[i])
    ensures var p := FindV2(lines, json).value;
      && p.at.Some? && Unbroken(p.at.value.line)
      && exists value :: InlineLine(p.at.value.line, value, json)
  {
    hide FindTable, Scalar, Unbroken, InlineTable.Parse, Assigned, AfterEquals, RawIn, InlineTable.ValueOf, IsBoolean;
    var raw := RawIn(lines, FEATURES, MULTI_AGENT_V2).value;
    RawKind(lines, FEATURES, MULTI_AGENT_V2);
    RawKind(lines, V2_TABLE, ENABLED);
    if raw.at.Some? {
      RawFound(lines, FEATURES, MULTI_AGENT_V2);
      AssignedMeans(raw.at.value.line, MULTI_AGENT_V2);
      if FindTable(lines, V2_TABLE).value.None? {
        assert InlineLine(raw.at.value.line, raw.at.value.value, json);
      }
    }
  }

  lemma {:induction false} RawFound(lines: seq<string>, table: string, key: string)
    requires RawIn(lines, table, key).Ok? && RawIn(lines, table, key).value.at.Some?
    ensures var a := RawIn(lines, table, key).value.at.value;
      a.index < |lines| && a.line == lines[a.index] && Assigned(a.line, key) == Some(a.value)
  {
    hide FindTable, Assigned;
    var range := FindTable(lines, table).value.value;
    var body := lines[range.header + 1..range.end];
    FoundAssigns(body, key, range.header + 1);
  }

  /** What Compatibility V1 installs, it records in this way. */
  lemma {:induction false} InstallIsRecorded(text: string, url: string, replace: bool, replaceRealtime: bool, c: Codec)
    requires Install(text, url, true, replace, replaceRealtime, c).Ok?
    ensures Install(text, url, true, replace, replaceRealtime, c).value.1.features.Some?
    ensures Recorded(Install(text, url, true, replace, replaceRealtime, c).value.1.features.value, c.json)
  {
    hide InstallRoute, Parse, Render, FindDepth, BooleanIn, FindV2, InstalledDepth, SetFeature, SetV2, SetDepth;
    hide LastIsText, InlineLine, Unbroken;
    var lines := Parse(Render(InstallRoute(Parse(text), url, replace, replaceRealtime, c).value.0)).lines;
    LinesUnbroken(Render(InstallRoute(Parse(text), url, replace, replaceRealtime, c).value.0));
    DepthIsRaw(lines);
    if FindV2(lines, c.json).Ok? && FindV2(lines, c.json).value.inline {
      V2IsRecorded(lines, c.json);
    }
  }

  lemma {:induction false} LinesUnbroken(text: string)
    ensures forall i :: 0 <= i < |Parse(text).lines| ==> Unbroken(Parse(text).lines[i])
  {
    hide *;
    ParsedUnbroken(StripBom(text));
    ParsedLines(text);
  }

  lemma {:induction false} ParsedLines(text: string)
    ensures Parse(text).lines == ParseBody(StripBom(text)).lines
  {
    hide ParseBody, StripBom;
  }

  // ---- Which native files are restored ----

  /** The key is set once before the first table, to a string. */
  ghost predicate HasTop(lines: seq<string>, key: string, c: Codec) {
    exists i: nat, value :: TopIs(lines, key, i, value, c)
  }

  /** A line that neither starts a table nor sets the key. */
  predicate Inert(line: string, key: string) {
    !IsHeader(line) && Assigned(line, key).None?
  }

  lemma {:induction false} FirstTableOf(lines: seq<string>, n: nat)
    requires n <= |lines| && (n < |lines| ==> IsHeader(lines[n]))
    requires forall i :: 0 <= i < n ==> !IsHeader(lines[i])
    ensures FirstTable(lines) == n
  {
    hide IsHeader;
    FirstTableIs(lines);
  }

  /** Taking such a line away keeps the setting, */
  lemma {:induction false} RemovedKeeps(lines: seq<string>, k: nat, key: string, c: Codec)
    requires k < |lines| && Inert(lines[k], key) && HasTop(lines, key, c)
    ensures HasTop(RemoveAt(lines, k), key, c)
  {
    hide Assigned, IsHeader, DecodeString, FirstTable;
    var i: nat, value :| TopIs(lines, key, i, value, c);
    var n, left := FirstTable(lines), RemoveAt(lines, k);
    FirstTableIs(lines);
    forall m: nat | m < |left|
      ensures left[m] == if m < k then lines[m] else lines[m + 1]
    {
    }
    FirstTableOf(left, if k < n then n - 1 else n);
    assert TopIs(left, key, if k < i then i - 1 else i, value, c);
  }

  /** and so does writing one such line over another. */
  lemma {:induction false} ReplacedKeeps(lines: seq<string>, k: nat, line: string, key: string, c: Codec)
    requires k < |lines| && Inert(lines[k], key) && Inert(line, key) && HasTop(lines, key, c)
    ensures HasTop(lines[k := line], key, c)
  {
    hide Assigned, IsHeader, DecodeString, FirstTable;
    var i: nat, value :| TopIs(lines, key, i, value, c);
    FirstTableIs(lines);
    FirstTableOf(lines[k := line], FirstTable(lines));
    assert TopIs(lines[k := line], key, i, value, c);
  }

  lemma {:induction false} CommentIsInert(line: string, key: string)
    requires IsManagedComment(line)
    ensures Inert(line, key)
  {
    hide Assigned;
    assert OWNER <= OLD_COMMENT;
    assert line[0] == '#';
    assert TrimStart(line) == line;
    CommentAssignsNothing(line, key);
  }

  lemma {:induction false} CommentAssignsNothing(line: string, key: string)
    requires IsComment(line)
    ensures Assigned(line, key).None?
  {
    hide IsComment, AfterEquals;
  }

  lemma {:induction false} CommentsKeep(d: Doc, n: nat, key: string, c: Codec)
    requires Valid(d) && n <= |d.lines| && HasTop(d.lines, key, c)
    ensures HasTop(RemoveComments(d, n).lines, key, c)
    decreases n
  {
    hide HasTop, IsManagedComment, RemoveEnding;
    if n > 0 {
      if IsManagedComment(d.lines[n - 1]) {
        CommentIsInert(d.lines[n - 1], key);
        RemovedKeeps(d.lines, n - 1, key, c);
        CommentsKeep(Remove(d, n - 1), n - 1, key, c);
      } else {
        CommentsKeep(d, n - 1, key, c);
      }
    }
  }

  lemma {:induction false} HasTopFound(lines: seq<string>, key: string, c: Codec)
    requires HasTop(lines, key, c)
    ensures FindTop(lines, key, c).Ok? && FindTop(lines, key, c).value.Some?
    ensures var a := FindTop(lines, key, c).value.value; TopIs(lines, key, a.index, a.value, c)
  {
    hide FindTop, TopIs;
    TopFound(lines, key, c);
  }

  /** A line that sets one key is inert for another. */
  lemma {:induction false} OtherIsInert(line: string, key: string, other: string)
    requires Assigned(line, key).Some? && IsKey(key) && IsKey(other) && key != other
    ensures Inert(line, other)
  {
    hide IsKey, TrimStart;
    OneKey(line, key, other);
    KeyIsNoHeader(line, key);
  }

  lemma {:induction false} KeyIsNoHeader(line: string, key: string)
    requires AfterEquals(line, key).Some? && IsKey(key)
    ensures !IsHeader(line)
  {
    hide TrimStart;
    KeyChars(key, 0);
  }

  lemma {:induction false} RouteKeys()
    ensures IsKey(BASE_URL) && IsKey(REALTIME) && BASE_URL != REALTIME
  {
  }

  /**
   * A native file is restored if and only if the route in it is as it was written, whatever else the user has changed:
   * the check is the only way a restore can fail.
   */
  lemma {:induction false} RestoresExactlyWhen(text: string, j: Journal, c: Codec)
    requires j.features.None?
    requires j.before.base.Some? ==> Assigned(j.before.base.value.line, BASE_URL).Some?
    ensures Restore(text, j, c).Ok? <==> RouteIntact(SplitLines(text), j.url, c)
  {
    hide SplitLines, VerifyInstalledRoute, RestoreRoute, Parse, Render, RouteIntact, Assigned;
    RouteCheck(SplitLines(text), j, c);
    if RouteIntact(SplitLines(text), j.url, c) {
      SplitLinesAgree(text);
      IntactHasTop(SplitLines(text), j.url, c);
      RouteGoesBack(Parse(text), j.before, c);
    }
  }

  lemma {:induction false} IntactHasTop(lines: seq<string>, url: string, c: Codec)
    requires RouteIntact(lines, url, c)
    ensures HasTop(lines, BASE_URL, c) && HasTop(lines, REALTIME, c)
  {
    hide TopIs, TopReads;
  }

  lemma {:induction false} RouteGoesBack(d: Doc, before: RouteBefore, c: Codec)
    requires Valid(d) && HasTop(d.lines, BASE_URL, c) && HasTop(d.lines, REALTIME, c)
    requires before.base.Some? ==> Assigned(before.base.value.line, BASE_URL).Some?
    ensures RestoreRoute(d, before, c).Ok?
  {
    hide HasTop, FindTop, RemoveComments, Assigned, DecodeString, FirstTable, Inert, IsKey, RemoveEnding;
    RouteKeys();
    CommentsKeep(d, |d.lines|, BASE_URL, c);
    CommentsKeep(d, |d.lines|, REALTIME, c);
    var d1 := RemoveComments(d, |d.lines|);
    HasTopFound(d1.lines, BASE_URL, c);
    var i := FindTop(d1.lines, BASE_URL, c).value.value.index;
    OtherIsInert(d1.lines[i], BASE_URL, REALTIME);
    if before.base.Some? {
      OtherIsInert(before.base.value.line, BASE_URL, REALTIME);
      ReplacedKeeps(d1.lines, i, before.base.value.line, REALTIME, c);
    } else {
      RemovedKeeps(d1.lines, i, REALTIME, c);
    }
    HasTopFound(PutBack(d1, i, before.base).lines, REALTIME, c);
  }
}
