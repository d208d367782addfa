/**
 * The round trip of Compatibility V1 for a text whose last line has no terminator: it holds exactly when neither the
 * route nor a feature puts a line before that last one, and no gap is left. A line put before the last one swallows
 * it, and then the installed file does not pass its own check.
 */
module UnterminatedCompatibility {
  import opened Common
  import T = Toml
  import opened ConfigLines
  import opened Document
  import opened Tracking
  import opened Regions
  import opened BodyEdits
  import opened ConfigEdit
  import opened FeatureLines
  import F = FeatureRegions
  import opened RouteEdits
  import opened RouteRoundTrip
  import opened InstallSucceeds
  import opened ConfigRoundTrip
  import opened Unterminated
  import opened EditTwins
  import InlineTable

  // ---- A run of lines without terminators ----

  /** The terminators of lines `m..q - 1` are missing, and that of the last line. */
  predicate Runs(es: seq<string>, m: nat, q: nat) {
    && m + 2 <= q <= |es| && (forall i :: 0 <= i < m ==> IsTerminator(es[i]))
    && (forall i :: m <= i < q - 1 ==> es[i] == "")
    && (forall i :: q - 1 <= i < |es| - 1 ==> IsTerminator(es[i])) && es[|es| - 1] == ""
  }

  /** The run is read as one line. */
  function Joined(lines: seq<string>, m: nat, q: nat): seq<string>
    requires m < q <= |lines|
  {
    lines[..m] + [Together(lines[m..q])] + lines[q..]
  }

  lemma {:induction false} RunRenders(lines: seq<string>, es: seq<string>, m: nat, q: nat)
    requires |lines| == |es| && m < q <= |lines| && forall i :: m <= i < q - 1 ==> es[i] == ""
    ensures RenderBody(lines, es) == RenderBody(Joined(lines, m, q), es[..m] + es[q - 1..])
    decreases q
  {
    hide RenderBody;
    var ls, js := Joined(lines, m, q), es[..m] + es[q - 1..];
    RenderStep(lines, es);
    RenderStep(ls, js);
    if m > 0 {
      RunRenders(lines[1..], es[1..], m - 1, q - 1);
      assert lines[1..][..m - 1] == lines[..m][1..] && lines[1..][m - 1..q - 1] == lines[m..q];
      assert lines[1..][q - 1..] == lines[q..] && es[1..][..m - 1] == es[..m][1..] && es[1..][q - 2..] == es[q - 1..];
      assert ls[1..] == Joined(lines[1..], m - 1, q - 1) && js[1..] == es[1..][..m - 1] + es[1..][q - 2..];
    } else if q > 1 {
      RunRenders(lines[1..], es[1..], 0, q - 1);
      RunHead(lines, es, q);
    } else {
      assert lines[0..1][1..] == [] && lines[0..1] == [lines[0]];
      assert Together([lines[0]]) == lines[0] + Together([]) == lines[0];
      assert ls == lines && js == es;
    }
  }

  lemma {:induction false} RunHead(lines: seq<string>, es: seq<string>, q: nat)
    requires |lines| == |es| && 1 < q <= |lines| && es[0] == ""
    requires RenderBody(lines[1..], es[1..])
      == RenderBody(Joined(lines[1..], 0, q - 1), es[1..][..0] + es[1..][q - 2..])
    ensures RenderBody(lines, es) == RenderBody(Joined(lines, 0, q), es[..0] + es[q - 1..])
  {
    hide RenderBody;
    var ls, js := Joined(lines, 0, q), es[..0] + es[q - 1..];
    var ks, ms := Joined(lines[1..], 0, q - 1), es[1..][..0] + es[1..][q - 2..];
    RenderStep(lines, es);
    RenderStep(ls, js);
    RenderStep(ks, ms);
    assert js == es[q - 1..] == ms;
    assert lines[0..q][1..] == lines[1..][0..q - 1];
    assert ls[0] == lines[0] + ks[0] && ls[1..] == lines[q..] == ks[1..];
  }

  lemma {:induction false} RunReads(x: Doc, y: Doc, m: nat, q: nat)
    requires Valid(x) && Clean(y) && x.lines == y.lines && x.bom == y.bom && EndsVisibly(x)
    requires Runs(x.endings, m, q) && x.lines[m] != ""
    ensures SplitLines(Render(x)) == Joined(x.lines, m, q)
  {
    hide RenderBody, SplitLines, Parse, IsTerminator, Unbroken, Together;
    var t := Together(x.lines[m..q]);
    RunRenders(x.lines, x.endings, m, q);
    TogetherUnbroken(x.lines[m..q]);
    StartOfTogether(x.lines[m..q]);
    if q == |x.lines| {
      SeenTogether(x.lines[m..q]);
    }
    var g := Doc(Joined(x.lines, m, q), x.endings[..m] + x.endings[q - 1..], x.bom);
    var g' := g.(endings := g.endings[|g.endings| - 1 := "\n"]);
    assert Render(g) == Render(x);
    NewlineTerminates();
    JoinedIsClean(x, y, g', m, q);
    TwinReadsBack(g, g');
  }

  lemma {:induction false} SeenTogether(lines: seq<string>)
    requires lines != [] && lines[|lines| - 1] != ""
    ensures Together(lines) != ""
  {
    if |lines| > 1 {
      SeenTogether(lines[1..]);
    }
  }

  lemma {:induction false} JoinedIsClean(x: Doc, y: Doc, g: Doc, m: nat, q: nat)
    requires Valid(x) && Clean(y) && x.lines == y.lines && x.bom == y.bom && Runs(x.endings, m, q)
    requires g.lines == Joined(x.lines, m, q) && g.bom == x.bom && |g.endings| == |g.lines|
    requires g.endings == (x.endings[..m] + x.endings[q - 1..])[|g.lines| - 1 := "\n"]
    requires Unbroken(Together(x.lines[m..q])) && IsTerminator("\n") && x.lines[m] != ""
    requires Together(x.lines[m..q]) != "" && Together(x.lines[m..q])[0] == x.lines[m][0]
    ensures Clean(g)
  {
    hide Unbroken, IsTerminator, Together;
    forall i | 0 <= i < |g.lines|
      ensures Unbroken(g.lines[i]) && IsTerminator(g.endings[i])
    {
      assert i < m ==> g.lines[i] == x.lines[i] && (i < |g.lines| - 1 ==> g.endings[i] == x.endings[i]);
      assert i > m ==> g.lines[i] == x.lines[q + (i - m - 1)];
      assert m <= i < |g.lines| - 1 ==> g.endings[i] == x.endings[q - 1 + (i - m)];
    }
  }

  // ---- A swallowed setting ----

  /** Where a managed line meets the last one: the run, the header of its table, the line, and a visible line after. */
  datatype Meet = Meet(m: nat, q: nat, header: nat, at: nat, seen: nat)

  /** The managed line `z` of a table, followed in the run by a visible line, and not written after the run. */
  predicate Meets(lines: seq<string>, table: string, z: string, w: Meet) {
    && w.header < w.m <= w.at < w.seen < w.q <= |lines|
    && IsTable(lines[w.header], table) && lines[w.at] == z && lines[w.seen] != "" && lines[w.m] != ""
    && (forall i :: w.header < i <= w.at ==> !IsHeader(lines[i]))
    && (forall i :: w.at < i < |lines| ==> lines[i] != z)
  }

  ghost predicate Swallowed(x: Doc, table: string, z: string, w: Meet) {
    Valid(x) && Runs(x.endings, w.m, w.q) && Meets(x.lines, table, z, w)
  }

  /** The terminator of an inserted line. */
  lemma {:induction false} RunsInsert(es: seq<string>, m: nat, q: nat, i: nat)
    requires Runs(es, m, q) && m > 0 && i <= |es| && !(q < |es| && i == |es| - 1)
    ensures Runs(InsertEnding(es, i), if i < m then m + 1 else m,
      if i < q - 1 || (i == q - 1 && q == |es|) then q + 1 else q)
  {
    hide IsTerminator;
    NewlineTerminates();
    if i == |es| {
      assert IsTerminator(es[0]);
      SameDominant(es, es);
    }
  }

  function RunEnd(w: Meet, n: nat, i: nat): nat {
    if i + 1 < w.q || (i + 1 == w.q && w.q == n) then w.q + 1 else w.q
  }

  function MovedMeet(w: Meet, n: nat, i: nat): Meet {
    Meet(if i < w.m then w.m + 1 else w.m, RunEnd(w, n, i), if i <= w.header then w.header + 1 else w.header,
      if i <= w.at then w.at + 1 else w.at,
      if i + 1 == w.q && w.q < n then i else if i <= w.seen then w.seen + 1 else w.seen)
  }

  lemma {:induction false} InsertMeets(lines: seq<string>, table: string, z: string, w: Meet, i: nat, line: string)
    requires Meets(lines, table, z, w) && i <= |lines|
    requires line != z && (i <= w.at ==> !IsHeader(line)) && (i < w.q ==> line != "")
    ensures Meets(InsertAt(lines, i, line), table, z, MovedMeet(w, |lines|, i))
  {
    hide IsTable, IsHeader, InsertAt;
    InsertedAt(lines, i, line);
    var ls, w' := InsertAt(lines, i, line), MovedMeet(w, |lines|, i);
    assert w'.header < w'.m <= w'.at < w'.seen < w'.q <= |ls|;
    assert IsTable(ls[w'.header], table) && ls[w'.at] == z && ls[w'.seen] != "" && ls[w'.m] != "";
    forall k | w'.header < k <= w'.at
      ensures !IsHeader(ls[k])
    {
      assert k != i ==> ls[k] == lines[if k < i then k else k - 1];
    }
    forall k | w'.at < k < |ls|
      ensures ls[k] != z
    {
      assert k != i ==> ls[k] == lines[if k < i then k else k - 1];
    }
  }

  lemma {:induction false} InsertedAt<X>(s: seq<X>, i: nat, x: X)
    requires i <= |s|
    ensures |InsertAt(s, i, x)| == |s| + 1 && InsertAt(s, i, x)[i] == x
    ensures forall k :: 0 <= k < i ==> InsertAt(s, i, x)[k] == s[k]
    ensures forall k :: i < k <= |s| ==> InsertAt(s, i, x)[k] == s[k - 1]
  {
  }

  lemma {:induction false} InsertSwallowed(x: Doc, table: string, z: string, w: Meet, i: nat, line: string)
    returns (w': Meet)
    requires Swallowed(x, table, z, w) && i <= |x.lines| && !(w.q < |x.lines| && i == |x.lines| - 1)
    requires line != z && (i <= w.at ==> !IsHeader(line)) && (i < w.q ==> line != "")
    ensures w' == MovedMeet(w, |x.lines|, i) && Swallowed(Insert(x, i, line), table, z, w')
  {
    hide IsTerminator, Meets, Runs;
    w' := MovedMeet(w, |x.lines|, i);
    InsertMeets(x.lines, table, z, w, i, line);
    MeetBounds(x.lines, table, z, w);
    RunsInsert(x.endings, w.m, w.q, i);
  }

  lemma {:induction false} MeetBounds(lines: seq<string>, table: string, z: string, w: Meet)
    requires Meets(lines, table, z, w)
    ensures w.m > 0 && w.q <= |lines|
  {
  }

  lemma {:induction false} SetSwallowed(x: Doc, table: string, z: string, w: Meet, i: nat, line: string)
    requires Swallowed(x, table, z, w) && i < |x.lines| && i != w.header && !(w.m <= i < w.q)
    requires line != z && !IsHeader(line)
    ensures Swallowed(SetLine(x, i, line), table, z, w)
  {
    hide IsTerminator, IsTable, IsHeader;
  }

  // ---- The check of a swallowed setting ----

  /** The line stands in the one table of this name. */
  predicate BodyShows(lines: seq<string>, table: string, z: string) {
    && FindTable(lines, table).Ok? && FindTable(lines, table).value.Some?
    && var range := FindTable(lines, table).value.value;
    exists a :: range.header < a < range.end && lines[a] == z
  }

  lemma {:induction false} RawShows(lines: seq<string>, table: string, key: string, z: string)
    requires RawIn(lines, table, key).Ok? && RawIn(lines, table, key).value.at.Some?
    requires RawIn(lines, table, key).value.at.value.line == z
    ensures BodyShows(lines, table, z)
  {
    hide FindTable, Assigned;
    var range := FindTable(lines, table).value.value;
    var body := lines[range.header + 1..range.end];
    var ms := Matches(body, key);
    assert lines[range.header + 1 + ms[0]] == body[ms[0]] == z;
  }

  lemma {:induction false} RawOnce(lines: seq<string>, table: string, key: string, a: nat, b: nat)
    requires RawIn(lines, table, key).Ok? && FindTable(lines, table).Ok? && FindTable(lines, table).value.Some?
    requires var range := FindTable(lines, table).value.value;
      range.header < a < range.end && range.header < b < range.end
    requires Assigned(lines[a], key).Some? && Assigned(lines[b], key).Some?
    ensures a == b
  {
    hide FindTable, Assigned, OnlyMatch;
    var range := FindTable(lines, table).value.value;
    MatchOnce(lines[range.header + 1..range.end], key, range.header + 1, a - range.header - 1, b - range.header - 1);
  }

  lemma {:induction false} MatchOnce(body: seq<string>, key: string, offset: nat, a: nat, b: nat)
    requires OnlyMatch(body, key, offset).Ok? && a < |body| && b < |body|
    requires Assigned(body[a], key).Some? && Assigned(body[b], key).Some?
    ensures a == b
  {
    hide Assigned;
    var hits := seq(|body|, i requires 0 <= i < |body| => Assigned(body[i], key).Some?);
    assert Matches(body, key) == Where(hits);
    assert hits[a] && hits[b];
    WhereNone(hits);
    WhereOne(hits);
  }

  lemma {:induction false} HeaderOnce(lines: seq<string>, table: string, h: nat)
    requires FindTable(lines, table).Ok? && h < |lines| && IsTable(lines[h], table)
    ensures FindTable(lines, table).value.Some? && FindTable(lines, table).value.value.header == h
  {
    hide IsTable, FirstTable;
    var hits := seq(|lines|, i requires 0 <= i < |lines| => IsTable(lines[i], table));
    assert Headers(lines, table) == Where(hits) && hits[h];
    WhereNone(hits);
    WhereOne(hits);
  }

  lemma {:induction false} FirstTableBeyond(lines: seq<string>, n: nat)
    requires n <= |lines| && forall i :: 0 <= i < n ==> !IsHeader(lines[i])
    ensures FirstTable(lines) >= n
  {
    hide IsHeader;
    if n > 0 {
      FirstTableBeyond(lines[1..], n - 1);
    }
  }

  lemma {:induction false} TableReaches(lines: seq<string>, table: string, h: nat, r: nat)
    requires FindTable(lines, table).Ok? && h < r < |lines| && IsTable(lines[h], table)
    requires forall i :: h < i <= r ==> !IsHeader(lines[i])
    ensures FindTable(lines, table).value.Some?
    ensures FindTable(lines, table).value.value.header == h && r < FindTable(lines, table).value.value.end
  {
    hide IsTable, IsHeader;
    HeaderOnce(lines, table, h);
    var tail := lines[h + 1..];
    forall i | 0 <= i < r - h
      ensures !IsHeader(tail[i])
    {
      assert tail[i] == lines[h + 1 + i];
    }
    FirstTableBeyond(tail, r - h);
    assert Headers(lines, table) == [h] by { HeadersAre(lines, table, h); }
  }

  lemma {:induction false} HeadersAre(lines: seq<string>, table: string, h: nat)
    requires FindTable(lines, table).Ok? && FindTable(lines, table).value.Some?
    requires FindTable(lines, table).value.value.header == h
    ensures Headers(lines, table) == [h]
  {
    hide IsTable, FirstTable;
  }

  lemma {:induction false} LongerTogether(lines: seq<string>, a: nat, b: nat)
    requires a < b < |lines| && lines[b] != ""
    ensures |Together(lines)| > |lines[a]|
  {
    if a > 0 {
      LongerTogether(lines[1..], a - 1, b - 1);
    } else {
      AtLeast(lines[1..], b - 1);
    }
  }

  lemma {:induction false} AtLeast(lines: seq<string>, b: nat)
    requires b < |lines|
    ensures |Together(lines)| >= |lines[b]|
  {
    if b > 0 {
      AtLeast(lines[1..], b - 1);
    }
  }

  /** Read as it was rendered, the file does not show the swallowed line in its table. */
  lemma {:induction false} SwallowedIsGone(lines: seq<string>, table: string, key: string, z: string, w: Meet)
    requires Meets(lines, table, z, w) && Assigned(z, key).Some? && RawIn(lines, table, key).Ok?
    requires FindTable(lines, table).Ok?
    ensures !BodyShows(Joined(lines, w.m, w.q), table, z)
  {
    hide FindTable, Assigned, IsHeader, IsTable, RawIn, Together;
    var j := Joined(lines, w.m, w.q);
    TableReaches(lines, table, w.header, w.at);
    if BodyShows(j, table, z) {
      assert j[w.header] == lines[w.header];
      HeaderOnce(j, table, w.header);
      var range := FindTable(j, table).value.value;
      var a :| range.header < a < range.end && j[a] == z;
      if a < w.m {
        assert lines[a] == z;
        RawOnce(lines, table, key, a, w.at);
        assert false;
      } else if a == w.m {
        var run := lines[w.m..w.q];
        assert run[w.at - w.m] == z && run[w.seen - w.m] != "";
        LongerTogether(run, w.at - w.m, w.seen - w.m);
        assert false;
      } else {
        assert false;
      }
    }
  }

  // ---- The settings and their lines ----

  function V2TableOf(f: Features): string {
    if f.v2.v2Table && !f.v2.inline then V2_TABLE else FEATURES
  }

  function V2KeyOf(f: Features): string {
    if f.v2.v2Table && !f.v2.inline then ENABLED else MULTI_AGENT_V2
  }

  /** What an installed file shows of each setting: its line in its table, and no other one that sets it. */
  predicate Shown(lines: seq<string>, table: string, key: string, z: string) {
    RawIn(lines, table, key).Ok? && FindTable(lines, table).Ok? && Assigned(z, key).Some? && BodyShows(lines, table, z)
  }

  lemma {:induction false} FoundShows(lines: seq<string>, table: string, key: string, z: string)
    requires RawIn(lines, table, key).Ok? && RawIn(lines, table, key).value.at.Some?
    requires RawIn(lines, table, key).value.at.value.line == z
    ensures Shown(lines, table, key, z)
  {
    hide Assigned, IsTable, FirstTable, BodyShows;
    RawShows(lines, table, key, z);
  }

  lemma {:induction false} FeatureShown(lines: seq<string>, key: string, value: string, line: string)
    requires VerifyFeature(lines, key, value, line).Ok?
    ensures Shown(lines, FEATURES, key, line)
  {
    hide RawIn, Shown, Scalar;
    FoundShows(lines, FEATURES, key, line);
  }

  lemma {:induction false} DepthShown(lines: seq<string>, depth: nat)
    requires VerifyDepth(lines, depth).Ok?
    ensures Shown(lines, AGENTS, MAX_DEPTH, DepthLine(depth))
  {
    hide RawIn, Shown, Scalar, DepthLine;
    FoundShows(lines, AGENTS, MAX_DEPTH, DepthLine(depth));
  }

  lemma {:induction false} V2Shown(lines: seq<string>, f: Features, json: InlineTable.Json)
    requires VerifyV2(lines, f.v2, json).Ok?
    ensures ManagedV2Line(f.v2, json).Ok?
    ensures Shown(lines, V2TableOf(f), V2KeyOf(f), ManagedV2Line(f.v2, json).value)
  {
    hide RawIn, Shown, Scalar, FindTable, InlineTable.Parse, InlineTable.Managed, V2Line, V2TableLine, AfterEquals;
    var line := ManagedV2Line(f.v2, json).value;
    RawKind(lines, FEATURES, MULTI_AGENT_V2);
    RawKind(lines, V2_TABLE, ENABLED);
    FeatureNames();
    if f.v2.v2Table && !f.v2.inline {
      FoundShows(lines, V2_TABLE, ENABLED, line);
    } else {
      FoundShows(lines, FEATURES, MULTI_AGENT_V2, line);
    }
  }

  lemma {:induction false} RawKind(lines: seq<string>, table: string, key: string)
    ensures RawIn(lines, table, key).Ok? ==>
      RawIn(lines, table, key).value.v2Table == (table == V2_TABLE) && !RawIn(lines, table, key).value.inline
  {
    hide FindTable, OnlyMatch;
  }

  lemma {:induction false} AllShown(lines: seq<string>, f: Features, json: InlineTable.Json)
    requires VerifyFeatures(lines, f, json).Ok?
    ensures Shown(lines, FEATURES, MULTI_AGENT, MultiAgentLine())
    ensures ManagedV2Line(f.v2, json).Ok?
    ensures Shown(lines, V2TableOf(f), V2KeyOf(f), ManagedV2Line(f.v2, json).value)
    ensures Shown(lines, AGENTS, MAX_DEPTH, DepthLine(f.installedDepth))
  {
    hide Shown, VerifyFeature, VerifyV2, VerifyDepth, ManagedV2Line, MultiAgentLine, DepthLine;
    FeatureShown(lines, MULTI_AGENT, "true", MultiAgentLine());
    V2Shown(lines, f, json);
    DepthShown(lines, f.installedDepth);
  }

  /** The line belongs to a key: it is visible, no header, and belongs to no other. */
  predicate KeyLine(line: string, key: string) {
    IsKey(key) && Assigned(line, key).Some?
  }

  lemma {:induction false} KeyLineIs(line: string, key: string, other: string)
    requires KeyLine(line, key) && IsKey(other)
    ensures line != "" && !IsHeader(line) && !IsBlank(line)
    ensures other != key ==> Assigned(line, other).None?
  {
    hide Assigned, IsHeader, IsBlank;
    if IsBlank(line) {
      BlankAssigns(line, key);
    }
    EmptyIsBlank();
    AssignsAfter(line, key);
    if other != key {
      OtherKey(line, key, other);
    }
  }

  lemma {:induction false} EmptyIsBlank()
    ensures IsBlank("")
  {
  }

  lemma {:induction false} AssignsAfter(line: string, key: string)
    requires KeyLine(line, key)
    ensures AfterEquals(line, key).Some? && !IsHeader(line)
  {
    KeyChars(key, 0);
    assert key[0] == T.TrimStart(line)[0];
  }

  lemma {:induction false} HeaderAssigns(line: string, key: string)
    requires IsHeader(line) && IsKey(key)
    ensures Assigned(line, key).None?
  {
    hide IsHeader;
    if Assigned(line, key).Some? {
      AssignsAfter(line, key);
    }
  }

  // ---- Steps after the first meeting ----

  /** No line of the run sets this key. */
  predicate Idle(lines: seq<string>, w: Meet, key: string)
    requires w.q <= |lines|
  {
    forall i :: w.m <= i < w.q ==> Assigned(lines[i], key).None?
  }

  /** A line of another key is put into the file, its last line excepted once the run has ended. */
  lemma {:induction false} EditSwallowed(x: Doc, table: string, key: string, z: string, w: Meet, s: Edit, other: string)
    returns (w': Meet)
    requires Swallowed(x, table, z, w) && EditFits(s, |x.lines|) && KeyLine(z, key) && KeyLine(s.line, other)
    requires key != other && (s.NewTable? ==> IsHeader(Header(s.name)))
    requires s.SetAt? ==> s.at != w.header && !(w.m <= s.at < w.q)
    requires s.PutAt? ==> !(w.q < |x.lines| && s.at == |x.lines| - 1)
    requires w.q <= |x.lines| && Idle(x.lines, w, MAX_DEPTH)
    ensures Swallowed(Apply(x, s), table, z, w') && w'.q <= |Apply(x, s).lines|
    ensures other != MAX_DEPTH ==> Idle(Apply(x, s).lines, w', MAX_DEPTH)
    ensures s.SetAt? ==> w' == w
    ensures s.PutAt? ==> w' == MovedMeet(w, |x.lines|, s.at)
  {
    hide Swallowed, Assigned, IsHeader, Insert, Idle, Header, IsBlank;
    FeatureKeys();
    SwallowedBounds(x, table, z, w);
    KeyLineIs(z, key, other);
    KeyLineIs(s.line, other, key);
    KeyLineIs(s.line, other, MAX_DEPTH);
    match s {
      case SetAt(i, line) =>
        SetSwallowed(x, table, z, w, i, line);
        w' := w;
        SetIdle(x, w, i, line);
      case PutAt(i, line) =>
        w' := InsertSwallowed(x, table, z, w, i, line);
        PutIdle(x, table, z, w, i, line);
        SwallowedBounds(Insert(x, i, line), table, z, w');
      case NewTable(name, line) =>
        w' := TableSwallowed(x, table, z, w, name, line);
    }
  }

  lemma {:induction false} SetIdle(x: Doc, w: Meet, i: nat, line: string)
    requires Valid(x) && i < |x.lines| && w.q <= |x.lines| && Idle(x.lines, w, MAX_DEPTH) && !(w.m <= i < w.q)
    ensures Idle(SetLine(x, i, line).lines, w, MAX_DEPTH)
  {
    hide Assigned;
  }

  lemma {:induction false} PutIdle(x: Doc, table: string, z: string, w: Meet, i: nat, line: string)
    requires Swallowed(x, table, z, w) && i <= |x.lines| && w.q <= |x.lines| && Idle(x.lines, w, MAX_DEPTH)
    ensures var w', ls := MovedMeet(w, |x.lines|, i), Insert(x, i, line).lines;
      w'.q <= |ls| && (Assigned(line, MAX_DEPTH).None? ==> Idle(ls, w', MAX_DEPTH))
  {
    hide Assigned, Runs, IsTable, IsHeader, InsertAt;
    InsertSize(x, i, line);
    InsertedAt(x.lines, i, line);
    var w', ls := MovedMeet(w, |x.lines|, i), Insert(x, i, line).lines;
    if Assigned(line, MAX_DEPTH).None? {
      forall k | w'.m <= k < w'.q
        ensures Assigned(ls[k], MAX_DEPTH).None?
      {
        assert k != i ==> ls[k] == x.lines[if k < i then k else k - 1];
      }
    }
  }

  lemma {:induction false} SwallowedBounds(x: Doc, table: string, z: string, w: Meet)
    requires Swallowed(x, table, z, w)
    ensures Valid(x) && w.q <= |x.lines|
  {
  }

  lemma {:induction false} TableSwallowed(x: Doc, table: string, z: string, w: Meet, name: string, line: string)
    returns (w': Meet)
    requires Swallowed(x, table, z, w) && z != "" && !IsHeader(z) && line != z && line != "" && IsHeader(Header(name))
    requires w.q <= |x.lines| && Idle(x.lines, w, MAX_DEPTH) && !IsHeader(line)
    ensures Swallowed(Apply(x, NewTable(name, line)), table, z, w')
    ensures w'.q <= |Apply(x, NewTable(name, line)).lines|
    ensures Assigned(line, MAX_DEPTH).None? ==> Idle(Apply(x, NewTable(name, line)).lines, w', MAX_DEPTH)
  {
    hide Swallowed, Assigned, IsHeader, Insert, Idle, Header, IsBlank;
    FeatureKeys();
    HeaderAssigns(Header(name), MAX_DEPTH);
    EmptyLineReads(MAX_DEPTH);
    var x1, w1 := x, w;
    if LastIsText(x.lines) {
      w1 := AppendSwallowed(x, table, z, w, "");
      x1 := Insert(x, |x.lines|, "");
    }
    var w2 := AppendSwallowed(x1, table, z, w1, Header(name));
    w' := AppendSwallowed(Insert(x1, |x1.lines|, Header(name)), table, z, w2, line);
  }

  lemma {:induction false} AppendSwallowed(x: Doc, table: string, z: string, w: Meet, line: string) returns (w': Meet)
    requires Swallowed(x, table, z, w) && line != z && w.q <= |x.lines| && Idle(x.lines, w, MAX_DEPTH)
    ensures Valid(x) && Swallowed(Insert(x, |x.lines|, line), table, z, w')
    ensures w'.q <= |Insert(x, |x.lines|, line).lines|
    ensures Idle(Insert(x, |x.lines|, line).lines, w', MAX_DEPTH)
  {
    hide Assigned, IsHeader, IsTable, Insert, Runs, InsertAt;
    InsertSize(x, |x.lines|, line);
    w' := InsertSwallowed(x, table, z, w, |x.lines|, line);
    InsertedAt(x.lines, |x.lines|, line);
    assert w'.q == w.q && w'.m == w.m;
  }

  // ---- The first meeting ----

  /** The body of a table: nothing before its end is a header, and where it ends before the file does, one is. */
  lemma {:induction false} TableBody(lines: seq<string>, table: string)
    requires FindTable(lines, table).Ok? && FindTable(lines, table).value.Some?
    ensures var range := FindTable(lines, table).value.value;
      && IsTable(lines[range.header], table)
      && (forall i :: range.header < i < range.end ==> !IsHeader(lines[i]))
      && (range.end < |lines| ==> IsHeader(lines[range.end]))
  {
    hide IsTable, IsHeader;
    var range := FindTable(lines, table).value.value;
    var tail := lines[range.header + 1..];
    FirstTableIs(tail);
    forall i | range.header < i < range.end
      ensures !IsHeader(lines[i])
    {
      assert tail[i - range.header - 1] == lines[i];
    }
  }

  lemma {:induction false} FirstTableIs(lines: seq<string>)
    ensures forall i :: 0 <= i < FirstTable(lines) ==> !IsHeader(lines[i])
    ensures FirstTable(lines) < |lines| ==> IsHeader(lines[FirstTable(lines)])
  {
    hide IsHeader;
    if lines != [] && !IsHeader(lines[0]) {
      FirstTableIs(lines[1..]);
    }
  }

  lemma {:induction false} BlanksBefore(lines: seq<string>, low: nat, end: nat)
    requires low <= end <= |lines|
    ensures BeforeBlanks(lines, low, end) < end ==> IsBlank(lines[BeforeBlanks(lines, low, end)])
  {
    hide IsBlank;
    if end > low && IsBlank(lines[end - 1]) {
      BlanksBefore(lines, low, end - 1);
    }
  }

  /** The table of the edit, the place it puts its line at, and the last line it meets there. */
  lemma {:induction false} MeetsWhere(lines: seq<string>, s: Edit, table: string, end: Option<nat>,
          current: Option<Assignment>, line: string)
    returns (h: nat)
    requires s == EditOf(current, end, table, line) && MeetsLast(s, |lines|)
    requires end == TableEnd(lines, table) || end == TableTextEnd(lines, table)
    ensures h < |lines| - 1 && IsTable(lines[h], table) && s == PutAt(|lines| - 1, line)
    ensures forall i :: h < i < |lines| - 1 ==> !IsHeader(lines[i])
    ensures IsHeader(lines[|lines| - 1]) || IsBlank(lines[|lines| - 1])
    ensures end == TableEnd(lines, table) ==> IsHeader(lines[|lines| - 1])
  {
    hide IsTable, IsHeader, FindTable, IsBlank;
    var range := FindTable(lines, table).value.value;
    h := range.header;
    TableBody(lines, table);
    BlanksBefore(lines, h + 1, range.end);
  }

  /** A line put before the last one of an unterminated file starts a run with it. */
  lemma {:induction false} StartSwallowed(x: Doc, y: Doc, table: string, key: string, z: string, h: nat)
    returns (w: Meet)
    requires Twins(x, y) && Terminators(y) && h < |x.lines| - 1 && IsTable(x.lines[h], table)
    requires forall i :: h < i < |x.lines| - 1 ==> !IsHeader(x.lines[i])
    requires IsHeader(x.lines[|x.lines| - 1]) || IsBlank(x.lines[|x.lines| - 1])
    requires KeyLine(z, key) && EndsVisibly(x)
    ensures var n := |x.lines|; w == Meet(n - 1, n + 1, h, n - 1, n)
    ensures Valid(x) && Swallowed(Insert(x, |x.lines| - 1, z), table, z, w)
    ensures forall other :: IsKey(other) && other != key ==>
      Idle(Insert(x, |x.lines| - 1, z).lines, w, other)
  {
    hide IsTable, IsHeader, Assigned, IsBlank, Insert, Twins, Terminators, InsertAt;
    TwinsSame(x, y);
    TwinMisses(x, y);
    var n := |x.lines|;
    w := Meet(n - 1, n + 1, h, n - 1, n);
    KeyLineIs(z, key, key);
    InsertSize(x, n - 1, z);
    InsertedAt(x.lines, n - 1, z);
    StartRuns(x, n, z);
    var ls := Insert(x, n - 1, z).lines;
    assert ls[n - 1] == z && ls[n] == x.lines[n - 1] && ls[h] == x.lines[h];
    forall other | IsKey(other) && other != key
      ensures Idle(ls, w, other)
    {
      KeyLineIs(z, key, other);
      if IsHeader(x.lines[n - 1]) {
        HeaderAssigns(x.lines[n - 1], other);
      } else {
        BlankAssigns(x.lines[n - 1], other);
      }
    }
  }

  lemma {:induction false} StartRuns(x: Doc, n: nat, z: string)
    requires Valid(x) && n == |x.lines| && n >= 2 && MissingFrom(x.endings, n - 1)
    ensures Runs(Insert(x, n - 1, z).endings, n - 1, n + 1)
  {
    hide IsTerminator;
  }

  lemma {:induction false} RawAssigned(lines: seq<string>, table: string, key: string)
    requires RawIn(lines, table, key).Ok? && RawIn(lines, table, key).value.at.Some?
    ensures var at := RawIn(lines, table, key).value.at.value;
      at.index < |lines| && Assigned(lines[at.index], key).Some?
  {
    hide Assigned, IsTable, FirstTable;
  }

  lemma {:induction false} DepthAssigned(lines: seq<string>)
    requires FindDepth(lines).Ok? && FindDepth(lines).value.at.Some?
    ensures Assigned(lines[FindDepth(lines).value.at.value.index], MAX_DEPTH).Some?
  {
    hide RawIn, Scalar, Assigned;
    RawAssigned(lines, AGENTS, MAX_DEPTH);
  }

  lemma {:induction false} BooleanAssigned(lines: seq<string>, table: string, key: string)
    requires BooleanIn(lines, table, key).Ok? && BooleanIn(lines, table, key).value.at.Some?
    ensures Assigned(lines[BooleanIn(lines, table, key).value.at.value.index], key).Some?
  {
    hide RawIn, Scalar, Assigned;
    RawAssigned(lines, table, key);
  }

  /** A line of the run, and the header, set nothing of this key. */
  lemma {:induction false} OutsideRun(x: Doc, table: string, z: string, w: Meet, i: nat, key: string)
    requires Swallowed(x, table, z, w) && IsName(table) && i < |x.lines| && IsKey(key)
    requires w.q <= |x.lines| && Idle(x.lines, w, key) && Assigned(x.lines[i], key).Some?
    ensures i != w.header && !(w.m <= i < w.q)
  {
    hide Assigned, IsTable, IsHeader, Runs;
    if i == w.header {
      TableIsHeader(x.lines[i], table);
      HeaderAssigns(x.lines[i], key);
    }
  }

  /** The depth edit keeps a line swallowed. */
  lemma {:induction false} DepthSwallowed(x: Doc, table: string, key: string, z: string, w: Meet, depth: nat)
    returns (w': Meet)
    requires Swallowed(x, table, z, w) && IsName(table) && KeyLine(z, key) && key != MAX_DEPTH
    requires w.q <= |x.lines| && Idle(x.lines, w, MAX_DEPTH) && KeyLine(DepthLine(depth), MAX_DEPTH)
    requires DepthEdit(x.lines, depth).Ok?
    requires var s := DepthEdit(x.lines, depth).value;
      s.PutAt? ==> !(w.q < |x.lines| && s.at == |x.lines| - 1)
    ensures Valid(x) && Swallowed(Apply(x, DepthEdit(x.lines, depth).value), table, z, w')
  {
    hide Swallowed, Assigned, IsHeader, Apply, Header, FindDepth, TableTextEnd, DepthLine, Idle, KeyLine;
    FeatureNames();
    FeatureKeys();
    HeaderReads(AGENTS);
    SwallowedBounds(x, table, z, w);
    var s := DepthEdit(x.lines, depth).value;
    if s.SetAt? {
      DepthAssigned(x.lines);
      OutsideRun(x, table, z, w, s.at, MAX_DEPTH);
    }
    w' := EditSwallowed(x, table, key, z, w, s, MAX_DEPTH);
  }

  /** The third edit meets the last line. */
  lemma {:induction false} ThirdMeets(x: Doc, y: Doc, depth: nat) returns (w: Meet)
    requires Twins(x, y) && Terminators(y) && EndsVisibly(x) && KeyLine(DepthLine(depth), MAX_DEPTH)
    requires DepthEdit(x.lines, depth).Ok? && MeetsLast(DepthEdit(x.lines, depth).value, |x.lines|)
    ensures Valid(x) && Swallowed(Apply(x, DepthEdit(x.lines, depth).value), AGENTS, DepthLine(depth), w)
  {
    hide Twins, Terminators, Insert, Swallowed, Assigned, IsHeader, IsBlank, FindDepth, TableTextEnd, DepthLine;
    hide KeyLine, IsTable, Idle;
    TwinsSame(x, y);
    var s := DepthEdit(x.lines, depth).value;
    var h := MeetsWhere(x.lines, s, AGENTS, TableTextEnd(x.lines, AGENTS), FindDepth(x.lines).value.at,
        DepthLine(depth));
    w := StartSwallowed(x, y, AGENTS, MAX_DEPTH, DepthLine(depth), h);
  }

  /** The second edit meets the last line, the first one did not. */
  lemma {:induction false} SecondMeets(x: Doc, y: Doc, f: Features, json: InlineTable.Json) returns (w: Meet)
    requires Twins(x, y) && Terminators(y) && EndsVisibly(x) && ManagedV2Line(f.v2, json).Ok?
    requires KeyLine(ManagedV2Line(f.v2, json).value, V2KeyOf(f))
    requires V2Edit(x.lines, f.v2, json).Ok? && MeetsLast(V2Edit(x.lines, f.v2, json).value, |x.lines|)
    ensures var z, d := ManagedV2Line(f.v2, json).value, Apply(x, V2Edit(x.lines, f.v2, json).value);
      && Valid(x) && Swallowed(d, V2TableOf(f), z, w) && w.q == |d.lines| && Idle(d.lines, w, MAX_DEPTH)
  {
    hide Twins, Terminators, Insert, Swallowed, Assigned, IsHeader, IsBlank, BooleanIn, TableEnd, ManagedV2Line;
    hide IsTable, Idle, KeyLine, V2Line, V2TableLine;
    FeatureKeys();
    TwinsSame(x, y);
    ManagedIs(f.v2, json);
    var s, z, table := V2Edit(x.lines, f.v2, json).value, ManagedV2Line(f.v2, json).value, V2TableOf(f);
    var h := MeetsWhere(x.lines, s, table, TableEnd(x.lines, table),
        BooleanIn(x.lines, table, V2KeyOf(f)).value.at, z);
    w := StartSwallowed(x, y, table, V2KeyOf(f), z, h);
    InsertSize(x, |x.lines| - 1, z);
  }

  /** After the first edit met the last line, that is still a header, and the second edit leaves it swallowed. */
  ghost predicate FirstMet(x: Doc, h: nat, w: Meet) {
    && Valid(x) && Swallowed(x, FEATURES, MultiAgentLine(), w) && w.header == h && |x.lines| >= 2
    && w.q == |x.lines| && IsHeader(x.lines[|x.lines| - 1])
    && forall other :: IsKey(other) && other != MULTI_AGENT ==> Idle(x.lines, w, other)
  }

  lemma {:induction false} FirstMeets(x: Doc, y: Doc) returns (h: nat, w: Meet)
    requires Twins(x, y) && Terminators(y) && EndsVisibly(x) && KeyLine(MultiAgentLine(), MULTI_AGENT)
    requires FeatureEdit(x.lines, MULTI_AGENT, MultiAgentLine()).Ok?
    requires MeetsLast(FeatureEdit(x.lines, MULTI_AGENT, MultiAgentLine()).value, |x.lines|)
    ensures Valid(x) && FirstMet(Apply(x, FeatureEdit(x.lines, MULTI_AGENT, MultiAgentLine()).value), h, w)
    ensures Apply(x, FeatureEdit(x.lines, MULTI_AGENT, MultiAgentLine()).value).lines
      == InsertAt(x.lines, |x.lines| - 1, MultiAgentLine())
    ensures IsHeader(x.lines[|x.lines| - 1])
  {
    hide Twins, Terminators, Insert, Swallowed, Assigned, IsHeader, IsBlank, BooleanIn, TableEnd, MultiAgentLine;
    hide IsTable, Idle, KeyLine;
    TwinsSame(x, y);
    var s := FeatureEdit(x.lines, MULTI_AGENT, MultiAgentLine()).value;
    h := MeetsWhere(x.lines, s, FEATURES, TableEnd(x.lines, FEATURES),
        BooleanIn(x.lines, FEATURES, MULTI_AGENT).value.at, MultiAgentLine());
    w := StartSwallowed(x, y, FEATURES, MULTI_AGENT, MultiAgentLine(), h);
    InsertSize(x, |x.lines| - 1, MultiAgentLine());
    InsertedAt(x.lines, |x.lines| - 1, MultiAgentLine());
  }

  /** The line the second edit replaces is not in the run. */
  lemma {:induction false} SecondOutside(lines: seq<string>, x: Doc, h: nat, w: Meet, f: Features,
          json: InlineTable.Json)
    requires FirstMet(x, h, w) && lines != [] && x.lines == InsertAt(lines, |lines| - 1, MultiAgentLine())
    requires IsHeader(lines[|lines| - 1]) && FindV2(lines, json) == Ok(f.v2)
    requires V2Edit(x.lines, f.v2, json).Ok? && V2Edit(x.lines, f.v2, json).value.SetAt?
    ensures var i := V2Edit(x.lines, f.v2, json).value.at; i != w.header && !(w.m <= i < w.q)
  {
    hide Swallowed, Assigned, IsHeader, BooleanIn, TableEnd, ManagedV2Line, IsTable, Idle, KeyLine, V2Line, V2TableLine;
    hide MultiAgentLine, FindV2;
    FeatureKeys();
    FeatureNames();
    F.Names();
    var i := V2Edit(x.lines, f.v2, json).value.at;
    if f.v2.inline {
      InlineAssigned(lines, json);
      HeaderAssigns(lines[|lines| - 1], MULTI_AGENT_V2);
      InsertedAt(lines, |lines| - 1, MultiAgentLine());
      OutsideRun(x, FEATURES, MultiAgentLine(), w, i, MULTI_AGENT_V2);
    } else {
      BooleanAssigned(x.lines, V2TableOf(f), V2KeyOf(f));
      OutsideRun(x, FEATURES, MultiAgentLine(), w, i, V2KeyOf(f));
    }
  }

  lemma {:induction false} InlineAssigned(lines: seq<string>, json: InlineTable.Json)
    requires FindV2(lines, json).Ok? && FindV2(lines, json).value.inline
    ensures var p := FindV2(lines, json).value;
      p.at.Some? && p.at.value.index < |lines| && Assigned(lines[p.at.value.index], MULTI_AGENT_V2).Some?
  {
    hide RawIn, Scalar, Assigned, FindTable, InlineTable.Parse;
    RawKind(lines, V2_TABLE, ENABLED);
    RawKind(lines, FEATURES, MULTI_AGENT_V2);
    if RawIn(lines, FEATURES, MULTI_AGENT_V2).Ok? && RawIn(lines, FEATURES, MULTI_AGENT_V2).value.at.Some? {
      RawAssigned(lines, FEATURES, MULTI_AGENT_V2);
    }
  }

  /** The table of the second edit is there already. */
  lemma {:induction false} NoNewTable(x: Doc, h: nat, w: Meet, f: Features, json: InlineTable.Json)
    requires FirstMet(x, h, w) && V2Edit(x.lines, f.v2, json).Ok?
    ensures !V2Edit(x.lines, f.v2, json).value.NewTable?
    ensures V2Edit(x.lines, f.v2, json).value.PutAt? ==>
      TableEnd(x.lines, V2TableOf(f)) == Some(V2Edit(x.lines, f.v2, json).value.at)
  {
    hide Assigned, IsHeader, BooleanIn, FindTable, ManagedV2Line, IsTable, Idle, KeyLine, V2Line, V2TableLine, Runs;
    hide MultiAgentLine;
    BooleanTable(x.lines, FEATURES, MULTI_AGENT_V2);
    if FindTable(x.lines, FEATURES).Ok? {
      HeaderOnce(x.lines, FEATURES, h);
    }
  }

  /** A line appended below a header that starts another table: the depth does not go right before it. */
  lemma {:induction false} NotBeforeAppended(lines: seq<string>, table: string, z: string)
    requires lines != [] && TableEnd(lines, table) == Some(|lines|) && IsHeader(lines[|lines| - 1])
    requires IsName(table) && table != AGENTS
    ensures TableTextEnd(lines + [z], AGENTS) != Some(|lines|)
  {
    hide IsHeader, IsTable, FindTable, IsBlank;
    F.Names();
    var more, n := lines + [z], |lines|;
    TableBody(lines, table);
    assert FindTable(lines, table).value.value.header == n - 1;
    if TableTextEnd(more, AGENTS) == Some(n) {
      TableBody(more, AGENTS);
      var range := FindTable(more, AGENTS).value.value;
      assert more[n - 1] == lines[n - 1];
      assert range.header == n - 1;
      OneTable(lines[n - 1], table, AGENTS);
      assert false;
    }
  }

  // ---- Some edit meets the last line ----

  ghost predicate IsSetting(f: Features, json: InlineTable.Json, table: string, key: string, z: string) {
    || (table == FEATURES && key == MULTI_AGENT && z == MultiAgentLine())
    || (table == V2TableOf(f) && key == V2KeyOf(f) && ManagedV2Line(f.v2, json) == Ok(z))
    || (table == AGENTS && key == MAX_DEPTH && z == DepthLine(f.installedDepth))
  }

  /** What is known of the edits and of the file they make. */
  ghost predicate Edited(x: Doc, y: Doc, s: Edits, json: InlineTable.Json) {
    && Twins(x, y) && Terminators(y) && EndsVisibly(x) && EditsOf(x.lines, json) == Ok(s) && EditsFit(x.lines, s)
    && KeyLine(MultiAgentLine(), MULTI_AGENT) && ManagedV2Line(s.record.v2, json).Ok?
    && KeyLine(ManagedV2Line(s.record.v2, json).value, V2KeyOf(s.record))
    && KeyLine(DepthLine(s.record.installedDepth), MAX_DEPTH)
  }

  /** The edits one by one. */
  lemma {:induction false} EditsAre(x: Doc, s: Edits, json: InlineTable.Json)
    requires Valid(x) && EditsOf(x.lines, json) == Ok(s) && EditsFit(x.lines, s)
    ensures var x1 := Apply(x, s.multiAgent);
      var x2 := if EditFits(s.v2, |x1.lines|) then Apply(x1, s.v2) else x1;
      && FeatureEdit(x.lines, MULTI_AGENT, MultiAgentLine()) == Ok(s.multiAgent)
      && FindV2(x.lines, json) == Ok(s.record.v2)
      && EditFits(s.v2, |x1.lines|) && V2Edit(x1.lines, s.record.v2, json) == Ok(s.v2)
      && EditFits(s.depth, |x2.lines|) && DepthEdit(x2.lines, s.record.installedDepth) == Ok(s.depth)
      && x1.lines == ApplyLines(x.lines, s.multiAgent) && x2.lines == ApplyLines(x1.lines, s.v2)
      && ApplyAll(x, s) == Apply(x2, s.depth)
  {
    hide BooleanIn, FindV2, FindDepth, V2Edit, DepthEdit, Apply, ApplyLines, EditOf, TableEnd, MultiAgentLine;
    hide LastIsText, InstalledDepth;
    ApplyIsLines(x, s.multiAgent);
    ApplyIsLines(Apply(x, s.multiAgent), s.v2);
  }

  /** The first edit meets the last line. */
  lemma {:induction false} FirstSwallows(x: Doc, y: Doc, s: Edits, json: InlineTable.Json) returns (w: Meet)
    requires Edited(x, y, s, json) && MeetsLast(s.multiAgent, |x.lines|)
    ensures Valid(x) && Swallowed(ApplyAll(x, s), FEATURES, MultiAgentLine(), w)
  {
    hide Twins, Terminators, Swallowed, KeyLine, Apply, ApplyLines, EditsOf, EditsFit, FeatureEdit, V2Edit, DepthEdit;
    hide FindV2, FirstMet, MultiAgentLine, DepthLine, ManagedV2Line, EndsVisibly;
    TwinsSame(x, y);
    EditsAre(x, s, json);
    EditLines(x.lines, s, json);
    var h, w1 := FirstMeets(x, y);
    var x1 := Apply(x, s.multiAgent);
    w := LaterEditsKeep(x.lines, x1, h, w1, s, json);
  }

  lemma {:induction false} LaterEditsKeep(lines: seq<string>, x: Doc, h: nat, w: Meet, s: Edits, json: InlineTable.Json)
    returns (w': Meet)
    requires FirstMet(x, h, w) && lines != [] && x.lines == InsertAt(lines, |lines| - 1, MultiAgentLine())
    requires IsHeader(lines[|lines| - 1]) && FindV2(lines, json) == Ok(s.record.v2)
    requires V2Edit(x.lines, s.record.v2, json) == Ok(s.v2) && EditFits(s.v2, |x.lines|)
    requires DepthEdit(Apply(x, s.v2).lines, s.record.installedDepth) == Ok(s.depth)
    requires EditFits(s.depth, |Apply(x, s.v2).lines|)
    requires KeyLine(MultiAgentLine(), MULTI_AGENT) && KeyLine(DepthLine(s.record.installedDepth), MAX_DEPTH)
    requires KeyLine(s.v2.line, V2KeyOf(s.record))
    ensures Swallowed(Apply(Apply(x, s.v2), s.depth), FEATURES, MultiAgentLine(), w')
  {
    hide Swallowed, KeyLine, Apply, V2Edit, DepthEdit, FindV2, MultiAgentLine, DepthLine, IsHeader, Idle, InsertAt;
    FeatureKeys();
    F.Names();
    FeatureNames();
    HeaderReads(FEATURES);
    NoNewTable(x, h, w, s.record, json);
    if s.v2.SetAt? {
      SecondOutside(lines, x, h, w, s.record, json);
    }
    KeysApart(s.record);
    var w2 := EditSwallowed(x, FEATURES, MULTI_AGENT, MultiAgentLine(), w, s.v2, V2KeyOf(s.record));
    var x2 := Apply(x, s.v2);
    if s.depth.PutAt? && w2.q < |x2.lines| && s.depth.at == |x2.lines| - 1 {
      AppendedAfter(x, w, w2, s, json);
      assert false;
    }
    w' := DepthSwallowed(x2, FEATURES, MULTI_AGENT, MultiAgentLine(), w2, s.record.installedDepth);
  }

  lemma {:induction false} KeysApart(f: Features)
    ensures V2KeyOf(f) != MULTI_AGENT && V2KeyOf(f) != MAX_DEPTH && MULTI_AGENT != MAX_DEPTH && IsKey(V2KeyOf(f))
    ensures IsName(V2TableOf(f)) && V2TableOf(f) != AGENTS
  {
    FeatureKeys();
    F.Names();
    assert |ENABLED| == 7 && |MAX_DEPTH| == 9;
  }

  lemma {:induction false} AppendedAfter(x: Doc, w: Meet, w2: Meet, s: Edits, json: InlineTable.Json)
    requires Valid(x) && x.lines != [] && w.q == |x.lines| && IsHeader(x.lines[|x.lines| - 1])
    requires EditFits(s.v2, |x.lines|) && !s.v2.NewTable? && w2.q < |Apply(x, s.v2).lines|
    requires (s.v2.SetAt? ==> w2 == w) && (s.v2.PutAt? ==> w2 == MovedMeet(w, |x.lines|, s.v2.at))
    requires s.v2.PutAt? ==> TableEnd(x.lines, V2TableOf(s.record)) == Some(s.v2.at)
    requires DepthEdit(Apply(x, s.v2).lines, s.record.installedDepth) == Ok(s.depth)
    ensures !(s.depth.PutAt? && s.depth.at == |Apply(x, s.v2).lines| - 1)
  {
    hide IsHeader, TableEnd, TableTextEnd, FindDepth, DepthLine;
    KeysApart(s.record);
    if s.v2.PutAt? {
      InsertSize(x, s.v2.at, s.v2.line);
      assert s.v2.at == |x.lines|;
      assert Apply(x, s.v2).lines == x.lines + [s.v2.line];
      NotBeforeAppended(x.lines, V2TableOf(s.record), s.v2.line);
    }
  }

  /** The second edit meets the last line. */
  lemma {:induction false} SecondSwallows(x: Doc, y: Doc, s: Edits, json: InlineTable.Json) returns (w: Meet)
    requires Edited(x, y, s, json) && !MeetsLast(s.multiAgent, |x.lines|)
    requires MeetsLast(s.v2, |ApplyLines(x.lines, s.multiAgent)|)
    ensures Valid(x) && Swallowed(ApplyAll(x, s), V2TableOf(s.record), ManagedV2Line(s.record.v2, json).value, w)
  {
    hide Twins, Terminators, Swallowed, KeyLine, Apply, ApplyLines, EditsOf, EditsFit, FeatureEdit, V2Edit, DepthEdit;
    hide FindV2, FirstMet, MultiAgentLine, DepthLine, ManagedV2Line, EndsVisibly, Idle;
    TwinsSame(x, y);
    EditsAre(x, s, json);
    TwinsApply(x, y, s.multiAgent);
    var x1, y1 := Apply(x, s.multiAgent), Apply(y, s.multiAgent);
    EditLines(x.lines, s, json);
    StaysVisible(x, s.multiAgent);
    TwinsSame(x1, y1);
    var w1 := SecondMeets(x1, y1, s.record, json);
    KeysApart(s.record);
    w := DepthSwallowed(Apply(x1, s.v2), V2TableOf(s.record), V2KeyOf(s.record), ManagedV2Line(s.record.v2, json).value,
        w1, s.record.installedDepth);
  }

  /** The third edit meets the last line. */
  lemma {:induction false} ThirdSwallows(x: Doc, y: Doc, s: Edits, json: InlineTable.Json) returns (w: Meet)
    requires Edited(x, y, s, json) && !MeetsLast(s.multiAgent, |x.lines|)
    requires !MeetsLast(s.v2, |ApplyLines(x.lines, s.multiAgent)|) && SomeMeetsLast(x.lines, s)
    ensures Valid(x) && Swallowed(ApplyAll(x, s), AGENTS, DepthLine(s.record.installedDepth), w)
  {
    hide Twins, Terminators, Swallowed, KeyLine, Apply, ApplyLines, EditsOf, FeatureEdit, V2Edit, DepthEdit;
    hide FindV2, MultiAgentLine, DepthLine, ManagedV2Line, EndsVisibly;
    TwinsSame(x, y);
    EditsAre(x, s, json);
    TwinsApply(x, y, s.multiAgent);
    var x1, y1 := Apply(x, s.multiAgent), Apply(y, s.multiAgent);
    EditLines(x.lines, s, json);
    StaysVisible(x, s.multiAgent);
    TwinsSame(x1, y1);
    TwinsApply(x1, y1, s.v2);
    StaysVisible(x1, s.v2);
    var x2, y2 := Apply(x1, s.v2), Apply(y1, s.v2);
    w := ThirdMeets(x2, y2, s.record.installedDepth);
  }

  lemma {:induction false} SomeSwallowed(x: Doc, y: Doc, s: Edits, json: InlineTable.Json)
    returns (table: string, key: string, z: string, w: Meet)
    requires Edited(x, y, s, json) && SomeMeetsLast(x.lines, s)
    ensures Valid(x) && IsSetting(s.record, json, table, key, z) && Swallowed(ApplyAll(x, s), table, z, w)
  {
    hide Twins, Terminators, Swallowed, KeyLine, Apply, ApplyLines, EditsOf, EditsFit, ApplyAll;
    hide MultiAgentLine, DepthLine, ManagedV2Line, EndsVisibly, V2TableOf, V2KeyOf;
    if MeetsLast(s.multiAgent, |x.lines|) {
      table, key, z := FEATURES, MULTI_AGENT, MultiAgentLine();
      w := FirstSwallows(x, y, s, json);
    } else if MeetsLast(s.v2, |ApplyLines(x.lines, s.multiAgent)|) {
      table, key, z := V2TableOf(s.record), V2KeyOf(s.record), ManagedV2Line(s.record.v2, json).value;
      w := SecondSwallows(x, y, s, json);
    } else {
      table, key, z := AGENTS, MAX_DEPTH, DepthLine(s.record.installedDepth);
      w := ThirdSwallows(x, y, s, json);
    }
  }

  lemma {:induction false} ApplyAllLines(x: Doc, y: Doc, s: Edits)
    requires Valid(x) && Valid(y) && x.lines == y.lines && x.bom == y.bom && EditsFit(x.lines, s)
    ensures ApplyAll(x, s).lines == ApplyAll(y, s).lines && ApplyAll(x, s).bom == ApplyAll(y, s).bom
  {
    hide Apply, ApplyLines;
    ApplyIsLines(x, s.multiAgent);
    ApplyIsLines(y, s.multiAgent);
    var x1, y1 := Apply(x, s.multiAgent), Apply(y, s.multiAgent);
    ApplyIsLines(x1, s.v2);
    ApplyIsLines(y1, s.v2);
    var x2, y2 := Apply(x1, s.v2), Apply(y1, s.v2);
    ApplyIsLines(x2, s.depth);
    ApplyIsLines(y2, s.depth);
    ApplyKeepsBom(x, s.multiAgent);
    ApplyKeepsBom(y, s.multiAgent);
    ApplyKeepsBom(x1, s.v2);
    ApplyKeepsBom(y1, s.v2);
    ApplyKeepsBom(x2, s.depth);
    ApplyKeepsBom(y2, s.depth);
  }

  lemma {:induction false} ApplyKeepsBom(d: Doc, s: Edit)
    requires Valid(d) && EditFits(s, |d.lines|)
    ensures Apply(d, s).bom == d.bom
  {
    hide Header, IsBlank;
  }

  /** A feature put before the last line: the installed file fails its own check. */
  lemma {:induction false} MetLineFails(x: Doc, y: Doc, s: Edits, json: InlineTable.Json)
    requires Twins(x, y) && Terminators(y) && EndsVisibly(x) && EditsOf(x.lines, json) == Ok(s)
    requires EditsFit(x.lines, s) && SomeMeetsLast(x.lines, s)
    requires Valid(x) && Valid(y) && EditsFit(y.lines, s) && Clean(ApplyAll(y, s))
    requires VerifyFeatures(ApplyAll(y, s).lines, s.record, json).Ok?
    ensures VerifyFeatures(SplitLines(Render(ApplyAll(x, s))), s.record, json).Err?
  {
    hide Twins, Terminators, EndsVisibly, EditsOf, EditsFit, Clean, ApplyAll, VerifyFeatures, SplitLines, Render;
    hide MultiAgentLine, DepthLine, ManagedV2Line, V2TableOf, V2KeyOf, BodyShows, FindTable, RawIn, Assigned;
    hide SomeMeetsLast, Runs, Meets;
    TwinsSame(x, y);
    ApplyAllLines(x, y, s);
    var x', y' := ApplyAll(x, s), ApplyAll(y, s);
    AllShown(y'.lines, s.record, json);
    FeatureKeys();
    KeysApart(s.record);
    var table, key, z, w := SomeSwallowed(x, y, s, json);
    AppliedVisible(x, s, json);
    MeetSeen(x'.lines, table, z, w);
    RunReads(x', y', w.m, w.q);
    SwallowedIsGone(x'.lines, table, key, z, w);
    var read := SplitLines(Render(x'));
    if VerifyFeatures(read, s.record, json).Ok? {
      AllShown(read, s.record, json);
      assert false;
    }
  }

  lemma {:induction false} MeetSeen(lines: seq<string>, table: string, z: string, w: Meet)
    requires Meets(lines, table, z, w)
    ensures w.m < w.q <= |lines| && lines[w.m] != ""
  {
  }

  // ---- A route line before the last line ----

  lemma {:induction false} StartsNoHeader(line: string)
    requires line != "" && line[0] != '[' && !IsSpace(line[0])
    ensures !IsHeader(line)
  {
  }

  /** What the routed text reads as has no table: its only header was swallowed. */
  lemma {:induction false} NoTableLeft(d: Doc, k: Spots, url: string, c: Codec)
    requires Valid(d) && InRange(k, |d.lines|) && BeforeLast(k, |d.lines|) && k.top == FirstTable(d.lines)
    requires (k.base.Some? ==> k.base != k.realtime && k.base.value < k.top)
      && (k.realtime.Some? ==> k.realtime.value < k.top)
    requires QuotedWell(c, url) && QuotedWell(c, REALTIME_URL)
    ensures var x := Routed(d, k, url, c);
      RunStart(k) < |x.lines| && forall i :: 0 <= i < |ReadLines(x, RunStart(k))| ==>
        !IsHeader(ReadLines(x, RunStart(k))[i])
  {
    hide IsHeader, BaseLine, RealtimeLine, Assigned, Routed, QuotedWell, Together, IsManagedComment, FirstTable;
    hide BeforeLast;
    InstalledLines(url, c);
    FirstTableIs(d.lines);
    RouteLinesStart(url, c);
    if k.base.Some? && k.realtime.None? {
      NoTableAbove(d, k, url, c);
    } else {
      var x, m := Routed(d, k, url, c), RunStart(k);
      BeforeMarker(d, k, url, c);
      StartOfTogether(x.lines[m..]);
      StartsNoHeader(Together(x.lines[m..]));
    }
  }

  lemma {:induction false} NoTableAbove(d: Doc, k: Spots, url: string, c: Codec)
    requires Valid(d) && InRange(k, |d.lines|) && BeforeLast(k, |d.lines|) && k.base.Some? && k.realtime.None?
    requires k.base.value < k.top && !IsHeader(BaseLine(url, c)) && RealtimeLine(c) != "" && RealtimeLine(c)[0] == 'e'
    requires forall i :: 0 <= i < k.top ==> !IsHeader(d.lines[i])
    requires ROUTE_COMMENT != "" && ROUTE_COMMENT[0] == '#' && !IsSpace('e') && !IsSpace('#')
    ensures var x := Routed(d, k, url, c);
      RunStart(k) < |x.lines| && forall i :: 0 <= i < |ReadLines(x, RunStart(k))| ==>
        !IsHeader(ReadLines(x, RunStart(k))[i])
  {
    hide IsHeader, BaseLine, RealtimeLine, Routed, Together;
    var x, m, i := Routed(d, k, url, c), RunStart(k), k.base.value;
    AfterRealtime(d, k, url, c);
    StartOfTogether(x.lines[m..]);
    StartsNoHeader(Together(x.lines[m..]));
    StartsNoHeader(ROUTE_COMMENT);
    assert x.lines[..m] == d.lines[..i] + [ROUTE_COMMENT, BaseLine(url, c)];
  }

  lemma {:induction false} RouteLinesStart(url: string, c: Codec)
    ensures RealtimeLine(c) != "" && RealtimeLine(c)[0] == 'e' && ROUTE_COMMENT != "" && ROUTE_COMMENT[0] == '#'
    ensures !IsSpace('e') && !IsSpace('#')
  {
    MarkerIsComment();
    UrlLineIs(REALTIME, REALTIME_URL, c);
    RealtimeIs(c);
    assert REALTIME[0] == 'e';
  }

  lemma {:induction false} RealtimeIs(c: Codec)
    ensures RealtimeLine(c) == UrlLine(REALTIME, REALTIME_URL, c)
  {
  }

  predicate NoHeaderIn(lines: seq<string>) {
    forall i :: 0 <= i < |lines| ==> !IsHeader(lines[i])
  }

  lemma {:induction false} NoTableFound(lines: seq<string>, name: string)
    requires (forall i :: 0 <= i < |lines| ==> !IsTable(lines[i], name))
    ensures FindTable(lines, name) == Ok(None)
  {
    hide IsTable;
    var hits := seq(|lines|, i requires 0 <= i < |lines| => IsTable(lines[i], name));
    assert Headers(lines, name) == Where(hits);
    WhereNone(hits);
  }

  lemma {:induction false} NoHeaderNoTable(lines: seq<string>, name: string)
    requires NoHeaderIn(lines) && IsName(name)
    ensures FindTable(lines, name) == Ok(None)
  {
    hide IsTable, IsHeader;
    forall i | 0 <= i < |lines|
      ensures !IsTable(lines[i], name)
    {
      if IsTable(lines[i], name) {
        TableIsHeader(lines[i], name);
      }
    }
    NoTableFound(lines, name);
  }

  /** The lines of a file without tables after the first feature edit. */
  function WithFeatures(lines: seq<string>): seq<string> {
    lines + (if LastIsText(lines) then [""] else []) + [Header(FEATURES)] + [MultiAgentLine()]
  }

  lemma {:induction false} FeaturesAppended(lines: seq<string>, l1: seq<string>)
    requires NoHeaderIn(lines) && l1 == WithFeatures(lines)
    ensures FindTable(l1, FEATURES) == Ok(Some(Range(|l1| - 2, |l1|)))
    ensures BooleanIn(l1, FEATURES, MULTI_AGENT_V2).Ok?
      && BooleanIn(l1, FEATURES, MULTI_AGENT_V2).value.at.None?
  {
    hide IsTable, IsHeader, Header, MultiAgentLine, IsBlank, Assigned, FindTable, Scalar, BooleanIn, NoHeaderIn;
    hide AfterEquals;
    F.Names();
    FeatureNames();
    FeatureLinesRead();
    HeaderReads(FEATURES);
    EmptyIsNoHeader();
    AppendedTables(lines, l1);
    OnlyTableFound(l1, FEATURES, |l1| - 2);
    NothingSet(l1);
  }

  lemma {:induction false} NothingSet(lines: seq<string>)
    requires |lines| >= 2 && FindTable(lines, FEATURES) == Ok(Some(Range(|lines| - 2, |lines|)))
    requires lines[|lines| - 1] == MultiAgentLine() && Assigned(MultiAgentLine(), MULTI_AGENT_V2).None?
    ensures BooleanIn(lines, FEATURES, MULTI_AGENT_V2).Ok?
      && BooleanIn(lines, FEATURES, MULTI_AGENT_V2).value.at.None?
  {
    hide Assigned, FindTable, Scalar, MultiAgentLine, OnlyMatch;
    var n := |lines|;
    assert lines[n - 1..n] == [MultiAgentLine()];
    OneLineAssigns(MultiAgentLine(), MULTI_AGENT_V2, n - 1);
  }

  lemma {:induction false} NoAgentsYet(lines: seq<string>, l1: seq<string>, z: string)
    requires NoHeaderIn(lines) && l1 == WithFeatures(lines) && !IsTable(z, AGENTS)
    ensures FindTable(l1 + [z], AGENTS) == Ok(None)
  {
    hide IsTable, IsHeader, Header, MultiAgentLine, IsBlank, Assigned, FindTable, WithFeatures, AfterEquals, Scalar;
    F.Names();
    FeatureNames();
    FeatureLinesRead();
    HeaderReads(FEATURES);
    FeatureKeys();
    EmptyIsNoHeader();
    AppendedTables(lines, l1);
    NoTableFound(l1 + [z], AGENTS);
  }

  lemma {:induction false} EmptyIsNoHeader()
    ensures !IsHeader("")
  {
  }

  /** The only header is the one appended. */
  lemma {:induction false} AppendedTables(lines: seq<string>, l1: seq<string>)
    requires NoHeaderIn(lines) && l1 == WithFeatures(lines) && !IsHeader(MultiAgentLine()) && !IsHeader("")
    requires IsTable(Header(FEATURES), FEATURES) && IsName(FEATURES) && IsName(AGENTS) && FEATURES != AGENTS
    ensures |l1| >= 2 && IsTable(l1[|l1| - 2], FEATURES) && !IsHeader(l1[|l1| - 1])
    ensures forall i :: 0 <= i < |l1| && i != |l1| - 2 ==> !IsTable(l1[i], FEATURES)
    ensures forall i :: 0 <= i < |l1| ==> !IsTable(l1[i], AGENTS)
  {
    hide IsTable, IsHeader, Header, MultiAgentLine, IsBlank;
    var n := |l1|;
    forall i | 0 <= i < n
      ensures i != n - 2 ==> !IsTable(l1[i], FEATURES)
      ensures !IsTable(l1[i], AGENTS)
    {
      if i == n - 2 {
        if IsTable(l1[i], AGENTS) {
          OneTable(l1[i], FEATURES, AGENTS);
        }
      } else {
        assert !IsHeader(l1[i]);
        if IsTable(l1[i], FEATURES) {
          TableIsHeader(l1[i], FEATURES);
        }
        if IsTable(l1[i], AGENTS) {
          TableIsHeader(l1[i], AGENTS);
        }
      }
    }
  }

  lemma {:induction false} OnlyTableFound(lines: seq<string>, name: string, h: nat)
    requires |lines| >= 2 && h == |lines| - 2 && IsTable(lines[h], name) && !IsHeader(lines[h + 1])
    requires forall i :: 0 <= i < |lines| && i != h ==> !IsTable(lines[i], name)
    ensures FindTable(lines, name) == Ok(Some(Range(h, |lines|)))
  {
    hide IsTable, IsHeader;
    var hits := seq(|lines|, i requires 0 <= i < |lines| => IsTable(lines[i], name));
    assert Headers(lines, name) == Where(hits);
    WhereOnly(hits, h);
    var tail := lines[h + 1..];
    assert tail == [lines[h + 1]] && tail[1..] == [];
  }

  lemma {:induction false} OneLineAssigns(line: string, key: string, offset: nat)
    requires Assigned(line, key).None?
    ensures OnlyMatch([line], key, offset) == Ok(None)
  {
    hide Assigned;
    var hits := seq(1, i requires 0 <= i < 1 => Assigned([line][i], key).Some?);
    assert Matches([line], key) == Where(hits);
    WhereNone(hits);
  }

  /** The features of a file without tables all go to its end. */
  lemma {:induction false} AllAppended(lines: seq<string>, json: InlineTable.Json)
    requires NoHeaderIn(lines)
    ensures EditsOf(lines, json).Ok?
    ensures var s, l1 := EditsOf(lines, json).value, WithFeatures(lines);
      && s.multiAgent == NewTable(FEATURES, MultiAgentLine()) && s.v2 == PutAt(|l1|, V2Line())
      && s.depth == NewTable(AGENTS, DepthLine(MIN_DEPTH)) && s.record.installedDepth == MIN_DEPTH
      && EditsFit(lines, s) && !SomeMeetsLast(lines, s)
  {
    hide IsTable, IsHeader, Header, MultiAgentLine, IsBlank, Assigned, FindTable, Scalar, V2Line, DepthLine, Apply;
    F.Names();
    NoHeaderNoTable(lines, FEATURES);
    NoHeaderNoTable(lines, V2_TABLE);
    NoHeaderNoTable(lines, AGENTS);
    var l1 := WithFeatures(lines);
    FirstAppended(lines);
    FeaturesAppended(lines, l1);
    NotAgents();
    NoAgentsYet(lines, l1, V2Line());
    V2Appended(l1);
  }

  lemma {:induction false} NotAgents()
    ensures !IsTable(V2Line(), AGENTS)
  {
    hide IsTable, IsHeader, V2Line;
    F.Names();
    FeatureLinesRead();
    if IsTable(V2Line(), AGENTS) {
      TableIsHeader(V2Line(), AGENTS);
    }
  }

  lemma {:induction false} FirstAppended(lines: seq<string>)
    ensures ApplyLines(lines, NewTable(FEATURES, MultiAgentLine())) == WithFeatures(lines)
  {
    hide Header, IsBlank, MultiAgentLine, AppendTable;
    AppendsTable(Plain(lines), FEATURES);
    var t := AppendTable(Plain(lines), FEATURES);
    InsertSize(t, |t.lines|, MultiAgentLine());
  }

  lemma {:induction false} V2Appended(lines: seq<string>)
    ensures ApplyLines(lines, PutAt(|lines|, V2Line())) == lines + [V2Line()]
  {
    hide V2Line;
    InsertSize(Plain(lines), |lines|, V2Line());
  }

  // ---- The features below a swallowed route ----

  /** What the features append to a file without tables. */
  function Appendix(lines: seq<string>): seq<string> {
    (if LastIsText(lines) then [""] else [])
      + [Header(FEATURES), MultiAgentLine(), V2Line(), "", Header(AGENTS), DepthLine(MIN_DEPTH)]
  }

  lemma {:induction false} AllAppendedLines(d: Doc, json: InlineTable.Json)
    requires Valid(d) && NoHeaderIn(d.lines)
    ensures EditsOf(d.lines, json).Ok? && EditsFit(d.lines, EditsOf(d.lines, json).value)
    ensures ApplyAll(d, EditsOf(d.lines, json).value).lines == d.lines + Appendix(d.lines)
    ensures ApplyAll(d, EditsOf(d.lines, json).value).bom == d.bom
  {
    hide EditsOf, Header, IsBlank, MultiAgentLine, V2Line, DepthLine, Apply, ApplyLines, LastIsText;
    AllAppended(d.lines, json);
    var s, l1 := EditsOf(d.lines, json).value, WithFeatures(d.lines);
    FirstAppended(d.lines);
    V2Appended(l1);
    ApplyIsLines(d, s.multiAgent);
    var d1 := Apply(d, s.multiAgent);
    ApplyIsLines(d1, s.v2);
    var d2 := Apply(d1, s.v2);
    ApplyIsLines(d2, s.depth);
    DepthAppended(d2.lines, l1);
    ApplyKeepsBom(d, s.multiAgent);
    ApplyKeepsBom(d1, s.v2);
    ApplyKeepsBom(d2, s.depth);
  }

  lemma {:induction false} DepthAppended(lines: seq<string>, l1: seq<string>)
    requires lines == l1 + [V2Line()]
    ensures ApplyLines(lines, NewTable(AGENTS, DepthLine(MIN_DEPTH)))
      == lines + ["", Header(AGENTS), DepthLine(MIN_DEPTH)]
  {
    hide Header, V2Line, AppendTable, DepthLine, LastIsText;
    AfterV2IsText(lines, l1);
    AppendsTable(Plain(lines), AGENTS);
    var t := AppendTable(Plain(lines), AGENTS);
    InsertSize(t, |t.lines|, DepthLine(MIN_DEPTH));
  }

  lemma {:induction false} AfterV2IsText(lines: seq<string>, l1: seq<string>)
    requires lines == l1 + [V2Line()]
    ensures LastIsText(lines)
  {
    hide IsBlank, V2Line, Assigned, AfterEquals, Scalar;
    FeatureLinesRead();
  }

  predicate RouteFree(line: string) {
    Assigned(line, BASE_URL).None? && Assigned(line, REALTIME).None? && Unbroken(line)
  }

  /** None of the appended lines has to do with the route, and each is one line. */
  lemma {:induction false} AppendixIs(lines: seq<string>)
    ensures forall i :: 0 <= i < |Appendix(lines)| ==> RouteFree(Appendix(lines)[i])
  {
    hide Header, MultiAgentLine, V2Line, DepthLine, RouteFree, LastIsText;
    FreeLines();
    FreeHeaders();
  }

  lemma {:induction false} FreeLines()
    ensures RouteFree(MultiAgentLine()) && RouteFree(V2Line()) && RouteFree(DepthLine(MIN_DEPTH))
  {
    hide MultiAgentLine, V2Line, DepthLine, Assigned, Unbroken, IsHeader, AfterEquals, Scalar, IsBlank;
    FeatureKeys();
    KeysDiffer();
    FeatureLinesRead();
    DepthLineReads(MIN_DEPTH);
    Unrelated(MultiAgentLine(), MULTI_AGENT);
    Unrelated(V2Line(), MULTI_AGENT_V2);
    Unrelated(DepthLine(MIN_DEPTH), MAX_DEPTH);
  }

  lemma {:induction false} FreeHeaders()
    ensures RouteFree(Header(FEATURES)) && RouteFree(Header(AGENTS)) && RouteFree("")
  {
    hide Header, Assigned, Unbroken, IsHeader;
    RouteKeys();
    FeatureNames();
    HeaderReads(FEATURES);
    HeaderReads(AGENTS);
    HeaderUnrelated(Header(FEATURES));
    HeaderUnrelated(Header(AGENTS));
    EmptyLineReads(BASE_URL);
    EmptyLineReads(REALTIME);
  }

  lemma {:induction false} KeysDiffer()
    ensures MULTI_AGENT !in {BASE_URL, REALTIME} && MULTI_AGENT_V2 !in {BASE_URL, REALTIME}
      && MAX_DEPTH !in {BASE_URL, REALTIME}
  {
    assert BASE_URL[0] == 'o' && REALTIME[0] == 'e';
    assert MULTI_AGENT[0] == 'm' && MULTI_AGENT_V2[0] == 'm' && MAX_DEPTH[0] == 'm';
  }

  lemma {:induction false} Unrelated(line: string, key: string)
    requires KeyLine(line, key) && key !in {BASE_URL, REALTIME}
    ensures Assigned(line, BASE_URL).None? && Assigned(line, REALTIME).None?
  {
    RouteKeys();
    KeyLineIs(line, key, BASE_URL);
    KeyLineIs(line, key, REALTIME);
  }

  lemma {:induction false} HeaderUnrelated(line: string)
    requires IsHeader(line)
    ensures Assigned(line, BASE_URL).None? && Assigned(line, REALTIME).None?
  {
    RouteKeys();
    HeaderAssigns(line, BASE_URL);
    HeaderAssigns(line, REALTIME);
  }

  /** Below a swallowed route the features install, and the whole reads back as it was written. */
  lemma {:induction false} FeaturesBelow(g: Doc, g': Doc, json: InlineTable.Json)
    requires Twins(g, g') && Clean(g') && EndsVisibly(g) && NoHeaderIn(g.lines)
    ensures Valid(g) && EditsOf(g.lines, json).Ok? && EditsFit(g.lines, EditsOf(g.lines, json).value)
    ensures SplitLines(Render(ApplyAll(g, EditsOf(g.lines, json).value))) == g.lines + Appendix(g.lines)
  {
    hide Twins, Clean, EndsVisibly, EditsOf, EditsFit, ApplyAll, SplitLines, Render, Appendix, SomeMeetsLast;
    TwinsSame(g, g');
    AllAppended(g.lines, json);
    AllAppendedLines(g, json);
    AllAppendedLines(g', json);
    CleanTerminators(g');
    var s := EditsOf(g.lines, json).value;
    TwinsApplyAll(g, g', s);
    AppliedVisible(g, s, json);
    AllAppendedClean(g, g', s, json);
    EndsAlike(ApplyAll(g, s), ApplyAll(g', s));
    TwinVisible(ApplyAll(g, s), ApplyAll(g', s));
  }

  lemma {:induction false} EndsAlike(d: Doc, e: Doc)
    requires d.lines == e.lines && EndsVisibly(d)
    ensures EndsVisibly(e)
  {
  }

  lemma {:induction false} AllAppendedClean(g: Doc, g': Doc, s: Edits, json: InlineTable.Json)
    requires Twins(g, g') && Clean(g') && Valid(g') && EditsFit(g'.lines, s) && EditsFit(g.lines, s)
    requires !SomeMeetsLast(g.lines, s) && NoHeaderIn(g.lines) && EditsOf(g'.lines, json) == Ok(s)
    ensures Clean(ApplyAll(g', s))
  {
    hide Twins, EditsOf, EditsFit, ApplyAll, Appendix, SomeMeetsLast, Unbroken, IsTerminator, IsHeader;
    TwinsSame(g, g');
    AllAppendedLines(g', json);
    AppendixIs(g'.lines);
    CleanTerminators(g');
    LastTerminators(g, g', s);
    var ls := ApplyAll(g', s).lines;
    forall i | 0 <= i < |ls|
      ensures Unbroken(ls[i])
    {
      assert ls[i] == if i < |g'.lines| then g'.lines[i] else Appendix(g'.lines)[i - |g'.lines|];
    }
  }

  lemma {:induction false} LastTerminators(d: Doc, e: Doc, s: Edits)
    requires Twins(d, e) && Terminators(e) && EditsFit(d.lines, s) && !SomeMeetsLast(d.lines, s)
    ensures Valid(e) && EditsFit(e.lines, s) && Terminators(ApplyAll(e, s))
  {
    hide Twins, Terminators, Apply, ApplyLines;
    TwinsSame(d, e);
    TwinsApply(d, e, s.multiAgent);
    var d1, e1 := Apply(d, s.multiAgent), Apply(e, s.multiAgent);
    ApplyIsLines(d, s.multiAgent);
    TwinsSame(d1, e1);
    TwinsApply(d1, e1, s.v2);
    var d2, e2 := Apply(d1, s.v2), Apply(e1, s.v2);
    ApplyIsLines(d1, s.v2);
    TwinsSame(d2, e2);
    TwinsApply(d2, e2, s.depth);
  }

  /** The route put before the last line: setting up succeeds, and what is installed fails its own check. */
  lemma {:induction false} MetRouteFails(text: string, d: Doc, e: Doc, k: Spots, url: string, replace: bool,
          replaceRealtime: bool, c: Codec)
    requires Setting(text, d, e, k, url, replace, replaceRealtime, c) && InRange(k, |d.lines|)
      && BeforeLast(k, |d.lines|)
    ensures Install(text, url, true, replace, replaceRealtime, c).Ok?
    ensures var (installed, j) := Install(text, url, true, replace, replaceRealtime, c).value;
      VerifyInstalledRoute(SplitLines(installed), j, c).Err?
  {
    hide Parse, Render, SplitLines, NoMarkers, QuotedWell, RouteAllowed, OpenEnded, NoLoneReturn, Clean;
    hide Terminated, Routed, Twins, EndsVisibly, EditsOf, EditsFit, ApplyAll, Appendix, InstallRoute;
    hide VerifyInstalledRoute, Install, ReadRoute, FindTop, BeforeLast, InRange, Alone, RunStart, Places;
    hide Together, Assigned, RealtimeLine, NoHeaderIn;
    var x, y, before := RoutingOf(text, d, e, k, url, replace, replaceRealtime, c);
    PlacesTop(d.lines, k, url, c);
    TwinsSame(d, e);
    SpotsAlone(e, k, url, c);
    SpotBounds(d.lines, k);
    RoutedRuns(d, e, k, url, c);
    RunStartVisible(d, k, url, c);
    var m := RunStart(k);
    RoutedLines(d, e, k, url, c);
    var g, g' := MergedParses(x, y, m);
    NoTableLeft(d, k, url, c);
    assert g.lines == ReadLines(x, m);
    NoHeaderIs(g.lines);
    FeaturesBelow(g, g', c.json);
    InstallOn(text, x, g, before, url, replace, replaceRealtime, c);
    CleanUnbroken(y);
    var (installed, j) := Install(text, url, true, replace, replaceRealtime, c).value;
    var read := SplitLines(installed);
    assert read == g.lines + Appendix(g.lines);
    AppendixIs(g.lines);
    RealtimeAssigned(url, c);
    if k.base.Some? && k.realtime.None? {
      RealtimeSwallows(d, k, url, c);
      OtherRealtimeFails(read, j, c);
    } else {
      MarkerSwallows(d, k, url, c);
      NoneAppended(g.lines, Appendix(g.lines), BASE_URL);
      NoRouteFails(read, j, c);
    }
  }

  lemma {:induction false} NoneAppended(lines: seq<string>, more: seq<string>, key: string)
    requires forall i :: 0 <= i < |lines| ==> Assigned(lines[i], key).None?
    requires forall i :: 0 <= i < |more| ==> Assigned(more[i], key).None?
    ensures forall i :: 0 <= i < |lines + more| ==> Assigned((lines + more)[i], key).None?
  {
    hide Assigned;
  }

  lemma {:induction false} RealtimeAssigned(url: string, c: Codec)
    requires QuotedWell(c, url) && QuotedWell(c, REALTIME_URL)
    ensures Assigned(RealtimeLine(c), REALTIME).Some?
  {
    hide *;
    InstalledLines(url, c);
  }

  lemma {:induction false} NoHeaderIs(lines: seq<string>)
    requires forall i :: 0 <= i < |lines| ==> !IsHeader(lines[i])
    ensures NoHeaderIn(lines)
  {
    hide IsHeader;
  }

  lemma {:induction false} PlacesTop(lines: seq<string>, k: Spots, url: string, c: Codec)
    requires Places(lines, k, url, c)
    ensures k.top == FirstTable(lines)
  {
    hide FindTop, IsManagedComment;
  }

  lemma {:induction false} InstallOn(text: string, x: Doc, g: Doc, before: RouteBefore, url: string, replace: bool,
          replaceRealtime: bool, c: Codec)
    requires Valid(x) && Valid(g) && InstallRoute(Parse(text), url, replace, replaceRealtime, c) == Ok((x, before))
    requires Parse(Render(x)) == g && EditsOf(g.lines, c.json).Ok? && EditsFit(g.lines, EditsOf(g.lines, c.json).value)
    ensures var s := EditsOf(g.lines, c.json).value;
      Install(text, url, true, replace, replaceRealtime, c)
        == Ok((Render(ApplyAll(g, s)), Journal(true, url, before, Some(s.record))))
  {
    hide Parse, Render, InstallRoute, InstallFeatures, EditsOf, EditsFit;
    InstallFeaturesIs(g, c.json);
  }

  // ---- The whole text ----

  /** Some feature puts its line right before the last one. */
  predicate FeatureMeetsLast(lines: seq<string>, json: InlineTable.Json) {
    var s := EditsOf(lines, json);
    s.Ok? && EditsFit(lines, s.value) && SomeMeetsLast(lines, s.value)
  }

  lemma {:induction false} FeaturesChecked(lines: seq<string>, j: Journal, c: Codec)
    requires j.features.Some?
    ensures VerifyInstalledRoute(lines, j, c).Ok? ==> VerifyFeatures(lines, j.features.value, c.json).Ok?
  {
    hide ReadRoute, FindTop, VerifyFeatures, UrlLine;
  }

  lemma {:induction false} CheckedFirst(text: string, j: Journal, c: Codec)
    ensures VerifyInstalledRoute(SplitLines(text), j, c).Err? ==> Restore(text, j, c).Err?
  {
    hide SplitLines, VerifyInstalledRoute;
  }

  /** A feature put before the last line: what is installed fails its own check. */
  lemma {:induction false} MetFeatureFails(text: string, x: Doc, y: Doc, before: RouteBefore, url: string,
          replace: bool, replaceRealtime: bool, c: Codec)
    requires Routing(text, x, y, before, url, replace, replaceRealtime, c) && Twins(x, y)
    requires EditsOf(x.lines, c.json).Ok? && FeatureMeetsLast(x.lines, c.json)
    ensures Valid(x) && EditsFit(x.lines, EditsOf(x.lines, c.json).value)
    ensures var s := EditsOf(x.lines, c.json).value;
      VerifyInstalledRoute(SplitLines(Render(ApplyAll(x, s))), Journal(true, url, before, Some(s.record)), c).Err?
  {
    hide Parse, Render, SplitLines, NoMarkers, QuotedWell, Clean, Terminated, Twins, InstallRoute, EditsOf, EditsFit;
    hide SomeMeetsLast, VerifyInstalledRoute, Restore, EndsVisibly, Install, InstallFeatures, LeavesGap, At, Flat;
    hide WellFormed, LastIsText, StepsDown, StepsAt, Kept, ApplyAll, VerifyFeatures;
    var s := EditsOf(x.lines, c.json).value;
    InstallBoth(text + "\n", y, before, url, replace, replaceRealtime, c);
    var e := CourseOf(text + "\n", url, replace, replaceRealtime, c);
    InstallFeaturesIs(y, c.json);
    assert e.routed == y && e.f == s.record && e.steps.installed == ApplyAll(y, s);
    CourseVisible(text + "\n", e, url, replace, replaceRealtime, c);
    CleanReads(e.steps.installed);
    CleanTerminators(y);
    FeaturesChecked(ApplyAll(y, s).lines, Journal(true, url, before, Some(s.record)), c);
    EndsAlike(y, x);
    MetLineFails(x, y, s, c.json);
    FeaturesChecked(SplitLines(Render(ApplyAll(x, s))), Journal(true, url, before, Some(s.record)), c);
  }

  /** The routed file of a text and of its completion have the same lines. */
  lemma {:induction false} SameSuccess(text: string, x: Doc, y: Doc, before: RouteBefore, url: string, replace: bool,
          replaceRealtime: bool, c: Codec)
    requires Routing(text, x, y, before, url, replace, replaceRealtime, c) && Twins(x, y)
    ensures Install(text, url, true, replace, replaceRealtime, c).Ok? <==>
      RouteAllowed(SplitLines(text + "\n"), replace, replaceRealtime, c)
        && FeaturesReadable(SplitLines(text + "\n"), c.json)
    ensures Install(text, url, true, replace, replaceRealtime, c).Ok? <==> EditsOf(x.lines, c.json).Ok?
    ensures EditsOf(x.lines, c.json).Ok? ==>
      var s := EditsOf(x.lines, c.json).value;
      EditsFit(x.lines, s) && Install(text, url, true, replace, replaceRealtime, c)
        == Ok((Render(ApplyAll(x, s)), Journal(true, url, before, Some(s.record))))
  {
    hide Parse, Render, SplitLines, NoMarkers, QuotedWell, Clean, Terminated, Twins, InstallRoute, EditsOf, EditsFit;
    hide EndsVisibly, Install, ApplyAll, FeaturesReadable, RouteAllowed;
    TwinVisible(x, y);
    InstallBoth(text, x, before, url, replace, replaceRealtime, c);
    InstallBoth(text + "\n", y, before, url, replace, replaceRealtime, c);
    InstallsExactlyWhen(text + "\n", url, true, replace, replaceRealtime, c);
  }

  /** What happens to a text whose last line has no terminator. */
  ghost predicate Fate(text: string, url: string, replace: bool, replaceRealtime: bool, c: Codec) {
    var lines := SplitLines(text);
    && (Install(text, url, true, replace, replaceRealtime, c).Ok? <==>
          RouteAllowed(lines, replace, replaceRealtime, c)
            && (PutsBeforeLast(lines, c) || FeaturesReadable(lines, c.json)))
    && (Install(text, url, true, replace, replaceRealtime, c).Ok? ==>
          && InstallRoute(Parse(text), url, replace, replaceRealtime, c).Ok?
          && var (installed, j) := Install(text, url, true, replace, replaceRealtime, c).value;
          var routed := InstallRoute(Parse(text), url, replace, replaceRealtime, c).value.0.lines;
          if PutsBeforeLast(lines, c) || FeatureMeetsLast(routed, c.json)
          then VerifyInstalledRoute(SplitLines(installed), j, c).Err? && Restore(installed, j, c).Err?
          else
            && VerifyInstalledRoute(SplitLines(installed), j, c) == Ok(())
            && (!LeavesGap(routed) ==> Restore(installed, j, c) == Ok(text))
            && (LeavesGap(routed) ==> exists b :: IsTerminator(b) && Restore(installed, j, c) == Ok(text + b)))
  }

  lemma {:induction false} NotMetFate(text: string, d: Doc, e: Doc, k: Spots, url: string, replace: bool,
          replaceRealtime: bool, c: Codec)
    requires Setting(text, d, e, k, url, replace, replaceRealtime, c) && !PutsBeforeLast(SplitLines(text), c)
    requires InRange(k, |d.lines|) && !BeforeLast(k, |d.lines|) && SplitLines(text) == d.lines
    ensures Fate(text, url, replace, replaceRealtime, c)
  {
    hide Parse, Render, SplitLines, NoMarkers, QuotedWell, RouteAllowed, OpenEnded, NoLoneReturn, Clean;
    hide Terminated, Routed, Twins, EndsVisibly, EditsOf, EditsFit, ApplyAll, InstallRoute, SomeMeetsLast, Places;
    hide VerifyInstalledRoute, Install, Restore, BeforeLast, InRange, PutsBeforeLast, LeavesGap, IsTerminator;
    hide FeaturesReadable, Follows;
    TwinsSame(d, e);
    var x, y, before := RoutingOf(text, d, e, k, url, replace, replaceRealtime, c);
    SplitLinesAgree(text + "\n");
    SameSuccess(text, x, y, before, url, replace, replaceRealtime, c);
    if EditsOf(x.lines, c.json).Ok? {
      if FeatureMeetsLast(x.lines, c.json) {
        MetFeatureFails(text, x, y, before, url, replace, replaceRealtime, c);
        var (installed, j) := Install(text, url, true, replace, replaceRealtime, c).value;
        CheckedFirst(installed, j, c);
      } else {
        var course, last := FeaturesComeBack(text, x, y, before, url, replace, replaceRealtime, c);
        TextComesBack(text, course, last, url, replace, replaceRealtime, c);
      }
    }
  }

  lemma {:induction false} MetFate(text: string, d: Doc, e: Doc, k: Spots, url: string, replace: bool,
          replaceRealtime: bool, c: Codec)
    requires Setting(text, d, e, k, url, replace, replaceRealtime, c) && PutsBeforeLast(SplitLines(text), c)
    requires InRange(k, |d.lines|) && BeforeLast(k, |d.lines|) && SplitLines(text) == d.lines
    ensures Fate(text, url, replace, replaceRealtime, c)
  {
    hide Parse, Render, SplitLines, NoMarkers, QuotedWell, RouteAllowed, OpenEnded, NoLoneReturn, Clean;
    hide Terminated, Twins, InstallRoute, Places, InstallFeatures, Install;
    hide VerifyInstalledRoute, Restore, BeforeLast, InRange, PutsBeforeLast, LeavesGap, FeatureMeetsLast;
    hide FeaturesReadable;
    MetRouteFails(text, d, e, k, url, replace, replaceRealtime, c);
    var (installed, j) := Install(text, url, true, replace, replaceRealtime, c).value;
    CheckedFirst(installed, j, c);
    InstallIs(text, url, true, replace, replaceRealtime, c);
  }

  /**
   * Compatibility V1 on every text with breaks LF or CR LF, without managed comments, and with an unterminated last
   * line. Setting up succeeds exactly when the route may be installed and the settings of the features read, or a
   * route line goes right before the last one. What is installed passes its own check if and only if neither the
   * route nor a feature puts a line right before the last one; then restoring gives the text back, with one line
   * break more when a gap is left. Otherwise the check fails and restoring refuses.
   */
  lemma {:induction false} UnterminatedFeatures(text: string, url: string, replace: bool, replaceRealtime: bool,
          c: Codec)
    requires OpenEnded(text) && NoLoneReturn(text) && NoMarkers(SplitLines(text)) && QuotedWell(c, url)
      && QuotedWell(c, REALTIME_URL)
    ensures Fate(text, url, replace, replaceRealtime, c)
  {
    hide *;
    SplitLinesAgree(text);
    ParseIsValid(text);
    InstallIs(text, url, true, replace, replaceRealtime, c);
    if RouteAllowed(SplitLines(text), replace, replaceRealtime, c) {
      var d, e, k := SettingOf(text, url, replace, replaceRealtime, c);
      SettingMeans(text, d, e, k, url, replace, replaceRealtime, c);
      PutsBeforeLastIs(d.lines, k, url, c);
      if BeforeLast(k, |d.lines|) {
        MetFate(text, d, e, k, url, replace, replaceRealtime, c);
      } else {
        NotMetFate(text, d, e, k, url, replace, replaceRealtime, c);
      }
    } else {
      if InstallRoute(Parse(text), url, replace, replaceRealtime, c).Ok? {
        RouteNeedsPermission(Parse(text), url, replace, replaceRealtime, c);
      }
      RefusedFate(text, url, replace, replaceRealtime, c);
    }
  }

  lemma {:induction false} RefusedFate(text: string, url: string, replace: bool, replaceRealtime: bool, c: Codec)
    requires !RouteAllowed(SplitLines(text), replace, replaceRealtime, c)
    requires !Install(text, url, true, replace, replaceRealtime, c).Ok?
    ensures Fate(text, url, replace, replaceRealtime, c)
  {
    hide Install, RouteAllowed, SplitLines, Restore, VerifyInstalledRoute, InstallRoute, Parse, PutsBeforeLast;
  }

  /** The file that is lost to the native route is lost here, too. */
  lemma {:induction false} LostFeaturesExample(url: string, c: Codec)
    requires QuotedWell(c, url) && QuotedWell(c, REALTIME_URL)
    ensures Install(LOST, url, true, false, false, c).Ok?
    ensures var (installed, j) := Install(LOST, url, true, false, false, c).value; Restore(installed, j, c).Err?
  {
    hide FindTop, FirstTable, Install, Restore, QuotedWell, SplitLines, VerifyInstalledRoute, OpenEnded, NoLoneReturn;
    hide NoMarkers, FeatureMeetsLast, LeavesGap, FeaturesReadable, InstallRoute;
    LostLines();
    LostKeys();
    LostReads(BASE_URL, c);
    LostReads(REALTIME, c);
    LostReads(PROVIDER, c);
    LostReads(CATALOG, c);
    UnterminatedFeatures(LOST, url, false, false, c);
  }
}
