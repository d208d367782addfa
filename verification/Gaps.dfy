/**
 * What connecting and disconnecting do to a file that leaves a gap, over all runs; and the first setup, from no
 * journal at all.
 */
module Gaps {
  import opened Common
  import opened ConfigLines
  import opened Document
  import opened Tracking
  import opened Regions
  import opened BodyEdits
  import opened ConfigEdit
  import opened RouteEdits
  import opened FeatureLines
  import F = FeatureRegions
  import opened ConfigRoundTrip
  import opened Separation
  import opened InstallSucceeds
  import opened Connections
  import J = Journal

  // ---- Rendered documents are terminated ----

  lemma {:induction false} BodyIsTerminated(lines: seq<string>, endings: seq<string>)
    requires AllTerminated(lines, endings) && |lines| == |endings|
    ensures var text := RenderBody(lines, endings);
      && (lines != [] ==> text != "" && text[|text| - 1] == '\n')
      && forall i :: 0 <= i < |text| && text[i] == '\r' ==> i + 1 < |text| && text[i + 1] == '\n'
  {
    if lines != [] {
      RenderStep(lines, endings);
      TailTerminated(lines, endings);
      BodyIsTerminated(lines[1..], endings[1..]);
      var rest := RenderBody(lines[1..], endings[1..]);
      if lines[1..] == [] {
        EmptyRenders();
      }
      LineIsTerminated(lines[0], endings[0], rest);
    } else {
      EmptyRenders();
    }
  }

  lemma {:induction false} LineIsTerminated(line: string, ending: string, rest: string)
    requires Unbroken(line) && IsTerminator(ending) && (rest != "" ==> rest[|rest| - 1] == '\n')
    requires forall i :: 0 <= i < |rest| && rest[i] == '\r' ==> i + 1 < |rest| && rest[i + 1] == '\n'
    ensures var text := line + ending + rest;
      && text != "" && text[|text| - 1] == '\n'
      && forall i :: 0 <= i < |text| && text[i] == '\r' ==> i + 1 < |text| && text[i + 1] == '\n'
  {
    var text, n := line + ending + rest, |line| + |ending|;
    forall i | 0 <= i < |text| && text[i] == '\r'
      ensures i + 1 < |text| && text[i + 1] == '\n'
    {
      if i >= n {
        assert text[i] == rest[i - n];
      } else if i >= |line| {
        assert text[i] == ending[i - |line|];
      }
    }
    if rest == "" {
      assert text[|text| - 1] == ending[|ending| - 1];
    }
  }

  lemma {:induction false} RenderIsTerminated(d: Doc)
    requires Clean(d)
    ensures Terminated(Render(d))
  {
    hide RenderBody, IsTerminator, Unbroken;
    BodyIsTerminated(d.lines, d.endings);
    EmptyRenders();
    var body := RenderBody(d.lines, d.endings);
    if d.bom {
      var text := [BOM] + body;
      forall i | 0 <= i < |text| && text[i] == '\r'
        ensures i + 1 < |text| && text[i + 1] == '\n'
      {
        assert text[i] == body[i - 1];
      }
    }
  }

  // ---- The same questions of a file with one empty line more ----

  lemma {:induction false} EndsFileAlike(rs: seq<Region>, rs': seq<Region>, table: string)
    requires Alike(rs, rs') && IsName(table) && FindTable(Lines(Flat(rs)), table).Ok?
    ensures EndsFile(Lines(Flat(rs')), table) <==> EndsFile(Lines(Flat(rs)), table)
    ensures FindTable(Lines(Flat(rs')), table) == Ok(None) <==> FindTable(Lines(Flat(rs)), table) == Ok(None)
  {
    hide Flat, IsHeader, IsTable, FindTable, Only, Absent, WellFormed;
    AlikeMeans(rs, rs');
    var k := TableCases(rs, table);
    TableAlike(rs, rs', table, k);
    EndsFileIs(rs, table, k);
    EndsFileIs(rs', table, k);
  }

  lemma {:induction false} AlikeMeans(rs: seq<Region>, rs': seq<Region>)
    requires Alike(rs, rs')
    ensures WellFormed(rs) && WellFormed(rs') && |rs| == |rs'|
  {
    hide WellFormed;
  }

  lemma {:induction false} MissingAlike(rs: seq<Region>, rs': seq<Region>, table: string, key: string)
    requires Alike(rs, rs') && IsName(table) && IsKey(key) && RawIn(Lines(Flat(rs)), table, key).Ok?
    ensures Missing(Lines(Flat(rs')), table, key) <==> Missing(Lines(Flat(rs)), table, key)
  {
    hide Flat, IsHeader, RawIn, Alike;
    RawAlike(rs, rs', table, key);
  }

  lemma {:induction false} ReadableTables(lines: seq<string>, c: Codec)
    requires FeaturesReadable(lines, c.json)
    ensures FindTable(lines, FEATURES).Ok? && FindTable(lines, V2_TABLE).Ok? && FindTable(lines, AGENTS).Ok?
    ensures RawIn(lines, FEATURES, MULTI_AGENT).Ok? && RawIn(lines, FEATURES, MULTI_AGENT_V2).Ok?
    ensures FindTable(lines, V2_TABLE).value.Some? ==> RawIn(lines, V2_TABLE, ENABLED).Ok?
  {
    hide OnlyMatch, Scalar, IsBoolean, IsDepth, WithoutUnderscores, FindTable;
  }

  lemma {:induction false} NoTableNoMissing(lines: seq<string>, table: string)
    requires FindTable(lines, table) == Ok(None)
    ensures !EndsFile(lines, table)
  {
  }

  /** The gap is still left by a file alike that ends in an empty line. */
  lemma {:induction false} LeavesGapAlike(rs: seq<Region>, rs': seq<Region>, c: Codec)
    requires Alike(rs, rs') && FeaturesReadable(Lines(Flat(rs)), c.json) && LeavesGap(Lines(Flat(rs)))
    requires Lines(Flat(rs')) == Lines(Flat(rs)) + [""]
    ensures LeavesGap(Lines(Flat(rs')))
  {
    hide Flat, IsHeader, RawIn, Alike, FindTable, EndsFile, Missing, FeaturesReadable, IsName, IsKey;
    F.Names();
    FeatureKeys();
    EmptyLineReads(ENABLED);
    var lines := Lines(Flat(rs));
    ReadableTables(lines, c);
    EndsFileAlike(rs, rs', FEATURES);
    EndsFileAlike(rs, rs', V2_TABLE);
    EndsFileAlike(rs, rs', AGENTS);
    MissingAlike(rs, rs', FEATURES, MULTI_AGENT);
    MissingAlike(rs, rs', FEATURES, MULTI_AGENT_V2);
    if FindTable(lines, V2_TABLE).value.Some? {
      MissingAlike(rs, rs', V2_TABLE, ENABLED);
    } else {
      NoTableNoMissing(lines, V2_TABLE);
      NoTableNoMissing(Lines(Flat(rs')), V2_TABLE);
    }
  }

  // ---- One round ----

  /** A file that Compatibility V1 may be installed on and that will leave a gap. */
  ghost predicate Gapping(text: string, c: Codec) {
    && Terminated(text) && NoMarkers(SplitLines(text)) && RouteAllowed(SplitLines(text), true, true, c)
    && FeaturesReadable(SplitLines(text), c.json) && WillLeaveGap(SplitLines(text), c)
  }

  function Installation(text: string, url: string, c: Codec): Result<(string, Journal)> {
    Install(text, url, true, true, true, c)
  }

  /** The text after one connect and disconnect. */
  function After(text: string, url: string, c: Codec): string {
    match Installation(text, url, c)
    case Err(_) => text
    case Ok(done) =>
      match Restore(done.0, done.1, c)
      case Err(_) => text
      case Ok(restored) => restored
  }

  lemma {:induction false} FirstTableGrows(lines: seq<string>)
    ensures FirstTable(lines) < |lines| ==> FirstTable(lines + [""]) < |lines + [""]|
  {
    if lines != [] && !IsHeader(lines[0]) {
      FirstTableGrows(lines[1..]);
      assert (lines + [""])[1..] == lines[1..] + [""];
    }
  }

  lemma {:induction false} AllowedAlike(rs: seq<Region>, rs': seq<Region>, c: Codec)
    requires Alike(rs, rs') && RouteAllowed(Lines(Flat(rs)), true, true, c)
    requires rs'[0].body == rs[0].body || rs'[0].body == rs[0].body + [Own("")]
    ensures RouteAllowed(Lines(Flat(rs')), true, true, c)
    ensures ReadRoute(Lines(Flat(rs')), c) == ReadRoute(Lines(Flat(rs)), c)
    ensures FindTop(Lines(Flat(rs')), BASE_URL, c) == FindTop(Lines(Flat(rs)), BASE_URL, c)
    ensures FindTop(Lines(Flat(rs')), REALTIME, c) == FindTop(Lines(Flat(rs)), REALTIME, c)
  {
    hide Flat, IsHeader, FindTop, Alike, ReadRoute;
    RouteKeys();
    ReadRouteAlike(rs, rs', c);
    RouteAlike(rs, rs', c, REALTIME);
    AllowedReads(Lines(Flat(rs)), true, true, c);
    RouteAlike(rs, rs', c, BASE_URL);
  }

  /** One round leaves one empty line more, on a file that is the same in every other respect. */
  lemma {:induction false} OneRound(text: string, url: string, c: Codec)
    requires Gapping(text, c) && QuotedWell(c, url) && QuotedWell(c, REALTIME_URL)
    ensures Installation(text, url, c).Ok?
    ensures var (installed, j) := Installation(text, url, c).value;
      && Restore(installed, j, c) == Ok(After(text, url, c)) && Distinct(installed, After(text, url, c), j, c)
      && j.active && j.url == url && j.features.Some?
    ensures Gapping(After(text, url, c), c) && SplitLines(After(text, url, c)) == SplitLines(text) + [""]
    ensures Installation(After(text, url, c), url, c).Ok?
    ensures Installation(After(text, url, c), url, c).value.1.before == Installation(text, url, c).value.1.before
  {
    hide *;
    GappingMeans(text, c);
    InstallsExactlyWhen(text, url, true, true, true, c);
    InstallationIs(text, url, c);
    GapForeseen(text, url, true, true, c);
    CompatibilitySeparates(text, url, true, true, c);
    CompatibilityRoundTrip(text, url, true, true, c);
    JournalOf(text, url, true, true, true, c);
    var e := EpisodeOf(text, url, true, true, c);
    EpisodeMeans(e, text, url, c);
    SplitLinesAgree(text);
    var rs', d0 := F.Gapped(e.rs, true), Parse(text);
    GappedAlike(e.rs, true);
    GappedStart(e.rs);
    AtLines(e.restored, rs', d0);
    KeptLines(d0.lines);
    GapKept(e.restored, e.rs, d0);
    AllowedAlike(e.rs, rs', c);
    ReadableAlike(e.rs, rs', c.json);
    WillLeaveMeans(d0.lines, c);
    LeavesGapAlike(e.rs, rs', c);
    FirstTableGrows(d0.lines);
    WillLeaveMeans(e.restored.lines, c);
    AtIsTerminated(e.restored, rs', d0);
    NoMarkersGrow(d0.lines);
    AfterIs(text, url, c);
    var next := After(text, url, c);
    GappingMeans(next, c);
    InstallsExactlyWhen(next, url, true, true, true, c);
    InstallationIs(next, url, c);
    SplitLinesAgree(next);
    InstallParts(text, url, true, true, c);
    InstallParts(next, url, true, true, c);
    BeforeIs(text, url, c);
    BeforeIs(next, url, c);
  }

  lemma {:induction false} GappingMeans(text: string, c: Codec)
    ensures Gapping(text, c) <==>
      && Terminated(text) && NoMarkers(SplitLines(text)) && RouteAllowed(SplitLines(text), true, true, c)
      && FeaturesReadable(SplitLines(text), c.json) && WillLeaveGap(SplitLines(text), c)
  {
  }

  lemma {:induction false} InstallationIs(text: string, url: string, c: Codec)
    ensures Installation(text, url, c) == Install(text, url, true, true, true, c)
  {
  }

  lemma {:induction false} WillLeaveMeans(lines: seq<string>, c: Codec)
    ensures WillLeaveGap(lines, c) <==>
      LeavesGap(lines) && (FirstTable(lines) < |lines| || FindTop(lines, BASE_URL, c) != Ok(None))
  {
  }

  lemma {:induction false} EpisodeMeans(e: Episode, text: string, url: string, c: Codec)
    requires Explains(e, text, url, true, true, c)
    ensures e.rs != [] && WellFormed(e.rs) && Flat(e.rs) == Kept(Parse(text).lines)
    ensures InstallRoute(Parse(text), url, true, true, c).Ok?
      && InstallRoute(Parse(text), url, true, true, c).value.0 == e.routed
    ensures LeavesGap(e.routed.lines) ==> At(e.restored, F.Gapped(e.rs, true), Parse(text))
    ensures Valid(e.restored) && SplitLines(Render(e.restored)) == e.restored.lines
    ensures Install(text, url, true, true, true, c).Ok?
    ensures var (installed, j) := Install(text, url, true, true, true, c).value;
      Restore(installed, j, c) == Ok(Render(e.restored))
  {
    hide Parse, Render, SplitLines, InstallRoute, InstallFeatures, Install, Restore, At, WellFormed, Flat, Valid;
    hide LeavesGap, F.Gapped, Kept;
    hide VerifyInstalledRoute;
  }

  lemma {:induction false} GappedStart(rs: seq<Region>)
    requires rs != []
    ensures F.Gapped(rs, true) != [] && |F.Gapped(rs, true)| == |rs|
  {
  }

  lemma {:induction false} AtIsTerminated(d: Doc, rs: seq<Region>, d0: Doc)
    requires At(d, rs, d0)
    ensures Valid(d) && Terminated(Render(d))
  {
    hide Tracks, IsHeader, Flat, Clean, Terminated, Render;
    AtLines(d, rs, d0);
    TrackedIsClean(d, Flat(rs), d0);
    RenderIsTerminated(d);
  }

  lemma {:induction false} NoMarkersGrow(lines: seq<string>)
    requires NoMarkers(lines)
    ensures NoMarkers(lines + [""])
  {
    EmptyLineReads(ENABLED);
    FeatureKeys();
  }

  lemma {:induction false} AfterIs(text: string, url: string, c: Codec)
    requires Installation(text, url, c).Ok?
    requires var (installed, j) := Installation(text, url, c).value; Restore(installed, j, c).Ok?
    ensures var (installed, j) := Installation(text, url, c).value; Restore(installed, j, c) == Ok(After(text, url, c))
  {
    hide Installation, Restore;
  }

  lemma {:induction false} BeforeIs(text: string, url: string, c: Codec)
    requires Installation(text, url, c).Ok?
    ensures var before := Installation(text, url, c).value.1.before;
      ReadRoute(Parse(text).lines, c) == Ok(before.base)
          && FindTop(Parse(text).lines, REALTIME, c) == Ok(before.realtime)
  {
    hide InstallRoute, InstallFeatures, Parse, Render, ReadRoute, FindTop;
    InstallParts(text, url, true, true, c);
    RouteRecordedOn(Parse(text), url, true, true, c);
  }

  // ---- All rounds ----

  function Rounds(text: string, url: string, c: Codec, k: nat): string {
    if k == 0 then text else After(Rounds(text, url, c, k - 1), url, c)
  }

  function Blanks(k: nat): seq<string> {
    seq(k, i requires 0 <= i < k => "")
  }

  lemma {:induction false} RoundsGrow(text: string, url: string, c: Codec, k: nat)
    requires Gapping(text, c) && QuotedWell(c, url) && QuotedWell(c, REALTIME_URL)
    ensures Gapping(Rounds(text, url, c, k), c) && SplitLines(Rounds(text, url, c, k)) == SplitLines(text) + Blanks(k)
    decreases k
  {
    hide *;
    FirstRound(text, url, c);
    if k > 0 {
      RoundsGrow(text, url, c, k - 1);
      OneRound(Rounds(text, url, c, k - 1), url, c);
      RoundsNext(text, url, c, k - 1);
      BlanksGrow(SplitLines(text), k - 1);
    } else {
      BlanksGrow(SplitLines(text), 0);
    }
  }

  lemma {:induction false} FirstRound(text: string, url: string, c: Codec)
    ensures Rounds(text, url, c, 0) == text
  {
  }

  lemma {:induction false} BlanksGrow(lines: seq<string>, k: nat)
    ensures lines + Blanks(k) + [""] == lines + Blanks(k + 1) && lines + Blanks(0) == lines
  {
    assert Blanks(k + 1) == Blanks(k) + [""];
  }

  /** The connected state of a text, and the disconnected one after it. */
  function Connected(text: string, url: string, c: Codec): Stage
    requires Installation(text, url, c).Ok?
  {
    var (installed, j) := Installation(text, url, c).value;
    Active(j, installed)
  }

  function Disconnected(text: string, url: string, c: Codec): Stage
    requires Installation(text, url, c).Ok?
  {
    Inactive(Installation(text, url, c).value.1, After(text, url, c))
  }

  lemma {:induction false} ActivatesNext(j: Journal, j': Journal, text: string, installed: string, c: Codec)
    requires j.active && j.features.Some? && Install(text, j.url, true, true, true, c) == Ok((installed, j'))
    requires j'.before == j.before && Passes(j.(active := false), text, c)
    ensures Activate(j.(active := false), text, c) == Ok(Some(J.State(j', installed)))
    ensures Deactivate(j.(active := false), text, c) == Ok(None)
  {
    hide Install, VerifyRestoredRoute, SplitLines;
  }

  /** Disconnecting leads to the next text, and connecting from there to its installation. */
  lemma {:induction false} RoundLinks(text: string, url: string, c: Codec)
    requires Gapping(text, c) && QuotedWell(c, url) && QuotedWell(c, REALTIME_URL)
    ensures Installation(text, url, c).Ok? && Installation(After(text, url, c), url, c).Ok?
    ensures Linked(Connected(text, url, c), Disconnected(text, url, c), c)
    ensures Linked(Disconnected(text, url, c), Connected(After(text, url, c), url, c), c)
  {
    hide Gapping, Install, Restore, After, Activate, Deactivate, Passes, QuotedWell;
    OneRound(text, url, c);
    var next := After(text, url, c);
    OneRound(next, url, c);
    var (installed, j) := Installation(text, url, c).value;
    var (installed', j') := Installation(next, url, c).value;
    PassesOf(installed, next, j, c);
    PassesOf(installed', After(next, url, c), j', c);
    DeactivateIs(j, next, installed, c);
    ActivatesNext(j, j', next, installed', c);
    LinkedWhenPassed(j, j', next, installed', c);
  }

  lemma {:induction false} PassesOf(installed: string, text: string, j: Journal, c: Codec)
    requires Distinct(installed, text, j, c)
    ensures j.active && Passes(j, installed, c) && Passes(j.(active := false), text, c)
  {
    hide Passes;
  }

  lemma {:induction false} LinkedWhenPassed(j: Journal, j': Journal, text: string, installed: string, c: Codec)
    requires j.active && j'.active && Passes(j.(active := false), text, c) && Passes(j', installed, c)
    ensures J.Apart(MatcherOf(c), Inactive(j, text), J.State(j', installed))
  {
    hide Passes;
    NeverBoth(installed, j', j.(active := false), c);
    NeverBoth(text, j', j.(active := false), c);
  }

  /** The chain of a file that leaves a gap: its texts grow by one empty line each round. */
  lemma {:induction false} ChainGrows(text: string, url: string, c: Codec, k: nat)
    requires Gapping(text, c) && QuotedWell(c, url) && QuotedWell(c, REALTIME_URL)
    ensures Installation(text, url, c).Ok? && Installation(Rounds(text, url, c, k), url, c).Ok?
    ensures var s, now := Connected(text, url, c), Rounds(text, url, c, k);
      && Chain(s, c, 2 * k) == Connected(now, url, c) && Chain(s, c, 2 * k + 1) == Disconnected(now, url, c)
      && LinkedAt(s, c, 2 * k) && LinkedAt(s, c, 2 * k + 1)
    decreases k
  {
    hide Gapping, Installation, After, Move, Stay, J.Apart, QuotedWell, Connected, Disconnected;
    RoundsGrow(text, url, c, k);
    RoundLinks(text, url, c);
    RoundLinks(Rounds(text, url, c, k), url, c);
    if k > 0 {
      ChainGrows(text, url, c, k - 1);
      RoundsGrow(text, url, c, k - 1);
      RoundLinks(Rounds(text, url, c, k - 1), url, c);
    }
  }

  /**
   * Over any run from the installation of a file that leaves a gap, stopped or rolled back anywhere: with `n` events
   * that changed the config, it is the original with half of them, rounded up, in empty lines when disconnected,
   * and when connected the installation of the original with that many; the read returns the journal of exactly
   * that text.
   */
  lemma {:induction false} GapsOverAllRuns(text: string, url: string, replace: bool, replaceRealtime: bool, c: Codec,
          events: seq<Event>)
    requires Terminated(text) && NoMarkers(SplitLines(text)) && QuotedWell(c, url) && QuotedWell(c, REALTIME_URL)
    requires Install(text, url, true, replace, replaceRealtime, c).Ok? && WillLeaveGap(SplitLines(text), c)
    ensures var (installed, j) := Install(text, url, true, replace, replaceRealtime, c).value;
      var s := Active(j, installed);
      var d, n := PerformAll(Equal(s), events, c), Changes(Equal(s), events, c);
      var read, now := J.Decide(d, MatcherOf(c)), Rounds(text, url, c, n / 2);
      && Installation(now, url, c).Ok? && read.Ok? && read.value.Some?
      && SplitLines(now) == SplitLines(text) + Blanks(n / 2)
      && if n % 2 == 0
         then J.State(read.value.value.journal, d.config) == Connected(now, url, c)
         else
           && J.State(read.value.value.journal, d.config) == Disconnected(now, url, c)
           && SplitLines(d.config) == SplitLines(text) + Blanks(n / 2 + 1)
  {
    hide *;
    ReplacingIsTheSame(text, url, true, replace, replaceRealtime, c);
    InstallsExactlyWhen(text, url, true, true, true, c);
    GappingMeans(text, c);
    InstallationIs(text, url, c);
    var s := Connected(text, url, c);
    ConnectedIs(text, url, c);
    ChainLinks(text, url, c);
    RunsAreRecovered(s, events, c);
    var n := Changes(Equal(s), events, c);
    RoundsGrow(text, url, c, n / 2);
    RoundsGrow(text, url, c, n / 2 + 1);
    RoundsNext(text, url, c, n / 2);
    ChainGrows(text, url, c, n / 2);
    DisconnectedIs(Rounds(text, url, c, n / 2), url, c);
  }

  lemma {:induction false} ConnectedIs(text: string, url: string, c: Codec)
    requires Installation(text, url, c).Ok?
    ensures var (installed, j) := Installation(text, url, c).value; Connected(text, url, c) == Active(j, installed)
  {
  }

  lemma {:induction false} DisconnectedIs(text: string, url: string, c: Codec)
    requires Installation(text, url, c).Ok?
    ensures Disconnected(text, url, c).config == After(text, url, c)
  {
  }

  lemma {:induction false} RoundsNext(text: string, url: string, c: Codec, k: nat)
    ensures Rounds(text, url, c, k + 1) == After(Rounds(text, url, c, k), url, c)
  {
  }

  lemma {:induction false} ChainLinks(text: string, url: string, c: Codec)
    requires Gapping(text, c) && QuotedWell(c, url) && QuotedWell(c, REALTIME_URL)
    ensures Installation(text, url, c).Ok? && Alternates(Connected(text, url, c), c)
  {
    hide Gapping, Installation, LinkedAt, QuotedWell, Connected, Rounds, Chain, Disconnected;
    ChainGrows(text, url, c, 0);
    forall n: nat
      ensures LinkedAt(Connected(text, url, c), c, n)
    {
      LinkedSomewhere(text, url, c, n);
    }
  }

  lemma {:induction false} LinkedSomewhere(text: string, url: string, c: Codec, n: nat)
    requires Gapping(text, c) && QuotedWell(c, url) && QuotedWell(c, REALTIME_URL)
    ensures Installation(text, url, c).Ok? && LinkedAt(Connected(text, url, c), c, n)
  {
    hide *;
    ChainGrows(text, url, c, n / 2);
    assert n == 2 * (n / 2) || n == 2 * (n / 2) + 1;
  }

  // ---- The first setup ----

  /** Setting up when there is no journal yet: the save of the installation may stop or be rolled back. */
  function SetUp(text: string, url: string, compatibility: bool, replace: bool, replaceRealtime: bool, c: Codec,
          ending: Ending): Files {
    var d := J.Disk(J.Missing, J.Missing, text);
    match Install(text, url, compatibility, replace, replaceRealtime, c)
    case Err(_) => d
    case Ok(done) => SaveEnding(d, Active(done.1, done.0), ending)
  }

  lemma {:induction false} InstallationSeparates(text: string, url: string, compatibility: bool, replace: bool,
          replaceRealtime: bool, c: Codec)
    requires Terminated(text) && NoMarkers(SplitLines(text)) && QuotedWell(c, url) && QuotedWell(c, REALTIME_URL)
    requires Install(text, url, compatibility, replace, replaceRealtime, c).Ok?
    ensures var (installed, j) := Install(text, url, compatibility, replace, replaceRealtime, c).value;
      Distinct(installed, text, j, c)
  {
    hide *;
    if compatibility {
      CompatibilitySeparates(text, url, replace, replaceRealtime, c);
    } else {
      NativeSeparates(text, url, replace, replaceRealtime, c);
    }
  }

  /** When no read succeeds, nothing that connects, disconnects or reads changes the files. */
  lemma {:induction false} NothingHappens(d: Files, events: seq<Event>, c: Codec)
    requires J.Decide(d, MatcherOf(c)).Err?
    ensures PerformAll(d, events, c) == d
  {
    hide J.Decide, MatcherOf, Activate, Deactivate;
    if events != [] {
      NothingHappens(d, events[..|events| - 1], c);
    }
  }

  /** The recovery copy is written and the config is not, or no longer. */
  predicate Stuck(ending: Ending) {
    match ending
    case Stopped(writes) => writes == 1
    case RolledBack(writes, undone) => 1 <= writes && undone < 3 && (writes >= 2 ==> undone >= 2)
  }

  /** The config is written, and not taken back. */
  predicate Reached(ending: Ending) {
    match ending
    case Stopped(writes) => writes >= 2
    case RolledBack(writes, undone) => writes >= 2 && undone < 2
  }

  /**
   * The first setup, stopped after any of its writes or failing and rolled back up to any point: every later
   * read, connect and disconnect fails, and changes nothing, exactly when the recovery copy is left alone beside
   * the original config; with the config written a read completes the setup; otherwise nothing is left of it.
   */
  lemma {:induction false} FirstSetUp(text: string, url: string, compatibility: bool, replace: bool,
          replaceRealtime: bool, c: Codec, ending: Ending, events: seq<Event>)
    requires Terminated(text) && NoMarkers(SplitLines(text)) && QuotedWell(c, url) && QuotedWell(c, REALTIME_URL)
    requires Install(text, url, compatibility, replace, replaceRealtime, c).Ok?
    ensures var (installed, j) := Install(text, url, compatibility, replace, replaceRealtime, c).value;
      var d := SetUp(text, url, compatibility, replace, replaceRealtime, c, ending);
      && (J.Decide(d, MatcherOf(c)).Err? <==> Stuck(ending))
      && (Stuck(ending) ==> d.config == text && PerformAll(d, events, c) == d)
      && (Reached(ending) ==> J.Repair(d, MatcherOf(c), J.ALL) == Equal(Active(j, installed)))
      && (!Stuck(ending) && !Reached(ending) ==>
            d == J.Disk(J.Missing, J.Missing, text) && J.Decide(d, MatcherOf(c)) == Ok(None))
  {
    hide Install, Terminated, NoMarkers, SplitLines, QuotedWell, Passes, J.Decide, J.Repair, PerformAll;
    InstallationSeparates(text, url, compatibility, replace, replaceRealtime, c);
    var (installed, j) := Install(text, url, compatibility, replace, replaceRealtime, c).value;
    match ending {
      case Stopped(writes) => J.FirstSave(MatcherOf(c), text, j, installed, writes);
      case RolledBack(writes, undone) => J.FirstUndo(MatcherOf(c), text, j, installed, writes, undone);
    }
    if Stuck(ending) {
      NothingHappens(SetUp(text, url, compatibility, replace, replaceRealtime, c, ending), events, c);
    }
  }
}
