/**
 * Restoring Compatibility V1 in a file the user has edited meanwhile. Of the user's lines only those can be lost
 * that read exactly as the managed ones, the headers of tables made by the installation and emptied since, and the
 * empty lines recorded before those; all others keep their order and their terminators.
 */
module CompatibilityEdits {
  import opened Common
  import opened ConfigLines
  import opened Document
  import opened Tracking
  import opened ConfigEdit
  import opened UserEdits
  import InlineTable

  /** These lines go one after the other, a terminator with each: the last one moves to the new last line. */
  ghost predicate Lost(lines: seq<string>, endings: seq<string>, lines': seq<string>, endings': seq<string>,
          gone: seq<string>)
    decreases |gone|
  {
    if gone == [] then lines' == lines && endings' == endings
    else
      exists k :: 0 <= k < |lines| == |endings| && lines[k] == gone[0]
          && Lost(RemoveAt(lines, k), RemoveEnding(endings, k), lines', endings', gone[1..])
  }

  /** A table made by the installation, and what emptying it takes away: its header and the recorded separator. */
  predicate Emptied(gone: seq<string>, p: Previous, table: string) {
    gone == [] ||
    (p.at.None? && !p.tablePresent && (gone == [""] ==> p.separator) &&
      (gone == [""] || IsTable(gone[0], table)) && (|gone| == 1 || (p.separator && gone[1..] == [""])))
  }

  /** At most the managed line and what is left of its table. */
  predicate AtMost(gone: seq<string>, line: string, p: Previous, table: string) {
    Emptied(gone, p, table) || (gone != [] && gone[0] == line && Emptied(gone[1..], p, table))
  }

  lemma {:induction false} LostMore(a: seq<string>, ae: seq<string>, b: seq<string>, be: seq<string>, c: seq<string>,
          ce: seq<string>, g: seq<string>, h: seq<string>)
    requires Lost(a, ae, b, be, g) && Lost(b, be, c, ce, h)
    ensures Lost(a, ae, c, ce, g + h)
    decreases |g|
  {
    hide Lost;
    if g == [] {
      NoneLost(a, ae, b, be);
      assert g + h == h;
    } else {
      var k := FirstLost(a, ae, b, be, g);
      LostMore(RemoveAt(a, k), RemoveEnding(ae, k), b, be, c, ce, g[1..], h);
      assert (g + h)[1..] == g[1..] + h && (g + h)[0] == g[0];
      LostFirst(a, ae, k, c, ce, g + h);
    }
  }

  lemma {:induction false} NoneLost(a: seq<string>, ae: seq<string>, b: seq<string>, be: seq<string>)
    requires Lost(a, ae, b, be, [])
    ensures b == a && be == ae
  {
  }

  lemma {:induction false} FirstLost(a: seq<string>, ae: seq<string>, b: seq<string>, be: seq<string>,
          gone: seq<string>)
    returns (k: nat)
    requires Lost(a, ae, b, be, gone) && gone != []
    ensures k < |a| == |ae| && a[k] == gone[0] && Lost(RemoveAt(a, k), RemoveEnding(ae, k), b, be, gone[1..])
  {
    k :| 0 <= k < |a| == |ae| && a[k] == gone[0] && Lost(RemoveAt(a, k), RemoveEnding(ae, k), b, be, gone[1..]);
  }

  lemma {:induction false} LostFirst(a: seq<string>, ae: seq<string>, k: nat, c: seq<string>, ce: seq<string>,
          gone: seq<string>)
    requires k < |a| == |ae| && gone != [] && a[k] == gone[0]
    requires Lost(RemoveAt(a, k), RemoveEnding(ae, k), c, ce, gone[1..])
    ensures Lost(a, ae, c, ce, gone)
  {
  }

  // ---- One line ----

  lemma {:induction false} OrigsCount(ts: seq<TLine>, endings: seq<string>)
    requires |ts| == |endings|
    ensures |Origs(ts)| == |KeptEndings(ts, endings)|
  {
    if ts != [] {
      OrigsCount(ts[..|ts| - 1], endings[..|ts| - 1]);
    }
  }

  /** Disowning a line drops it from the user's lines. */
  lemma {:induction false} DisownDrops(ts: seq<TLine>, endings: seq<string>, i: nat)
    requires |ts| == |endings| && i < |ts| && ts[i].orig.Some?
    ensures var k, ts' := |Origs(ts[..i])|, ts[i := Own(ts[i].line)];
      && k < |Origs(ts)| && k < |KeptEndings(ts, endings)| && Origs(ts)[k] == ts[i].orig.value
      && Origs(ts') == RemoveAt(Origs(ts), k) && KeptEndings(ts', endings) == RemoveAt(KeptEndings(ts, endings), k)
  {
    hide Origs, KeptEndings;
    var n, ts' := |ts| - 1, ts[i := Own(ts[i].line)];
    OrigsStep(ts, endings);
    OrigsStep(ts', endings);
    OrigsCount(ts[..n], endings[..n]);
    if i < n {
      DisownDrops(ts[..n], endings[..n], i);
      assert ts'[..n] == ts[..n][i := Own(ts[i].line)] && ts[..n][..i] == ts[..i];
      RemoveBefore(Origs(ts[..n]), |Origs(ts[..i])|, if ts[n].orig.Some? then [ts[n].orig.value] else []);
      RemoveBefore(KeptEndings(ts[..n], endings[..n]), |Origs(ts[..i])|,
          if ts[n].orig.Some? then [endings[n]] else []);
    } else {
      assert ts'[..n] == ts[..n];
      RemoveLast(Origs(ts[..n]), ts[n].orig.value);
      RemoveLast(KeptEndings(ts[..n], endings[..n]), endings[n]);
    }
  }

  lemma {:induction false} OrigsStep(ts: seq<TLine>, endings: seq<string>)
    requires |ts| == |endings| > 0
    ensures var n := |ts| - 1;
      && Origs(ts) == Origs(ts[..n]) + (if ts[n].orig.Some? then [ts[n].orig.value] else [])
      && KeptEndings(ts, endings) == KeptEndings(ts[..n], endings[..n])
           + (if ts[n].orig.Some? then [endings[n]] else [])
  {
  }

  lemma {:induction false} RemoveBefore<T>(s: seq<T>, k: nat, more: seq<T>)
    requires k < |s|
    ensures RemoveAt(s + more, k) == RemoveAt(s, k) + more && (s + more)[k] == s[k]
  {
  }

  lemma {:induction false} RemoveLast<T>(s: seq<T>, x: T)
    ensures RemoveAt(s + [x], |s|) == s && (s + [x])[|s|] == x
  {
  }

  lemma {:induction false} DroppedEndings(kept: seq<string>, original: seq<string>, k: nat)
    requires SameButLast(kept, original) && k < |kept|
    ensures SameButLast(RemoveAt(kept, k), RemoveEnding(original, k))
    ensures RemoveEnding(original, k) != [] ==>
      RemoveEnding(original, k)[|original| - 2] == original[|original| - 1]
  {
  }

  lemma {:induction false} Disown(d: Doc, ts: seq<TLine>, others: seq<string>, endings: seq<string>, i: nat)
    returns (others': seq<string>, endings': seq<string>, gone: seq<string>)
    requires Holds(d, ts, others, endings) && i < |ts|
    ensures Holds(d, ts[i := Own(ts[i].line)], others', endings') && Lost(others, endings, others', endings', gone)
    ensures gone == if ts[i].orig.Some? then [ts[i].line] else []
  {
    hide Origs, KeptEndings, AllTerminators;
    var ts' := ts[i := Own(ts[i].line)];
    assert Lines(ts') == Lines(ts);
    others', endings', gone := others, endings, [];
    if ts[i].orig.Some? {
      var k := |Origs(ts[..i])|;
      DisownDrops(ts, d.endings, i);
      OrigsCount(ts, d.endings);
      DroppedEndings(KeptEndings(ts, d.endings), endings, k);
      others', endings', gone := RemoveAt(others, k), RemoveEnding(endings, k), [ts[i].line];
      assert gone[1..] == [];
      assert others[k] == gone[0];
    } else {
      assert ts' == ts;
    }
  }

  // ---- One step ----

  /** The lines can be rendered and read back. */
  predicate Sound(ts: seq<TLine>, bom: bool) {
    forall i :: 0 <= i < |ts| ==> SoundLine(ts[i].line, bom)
  }

  predicate SoundLine(line: string, bom: bool) {
    Unbroken(line) && (bom || NoBom(line))
  }

  /** Lines of one's own are recorded ones. */
  predicate OwnFrom(ts: seq<TLine>, recorded: seq<string>) {
    forall i :: 0 <= i < |ts| && ts[i].orig.None? ==> ts[i].line in recorded
  }

  ghost predicate Carries(d: Doc, ts: seq<TLine>, others: seq<string>, endings: seq<string>, recorded: seq<string>) {
    Holds(d, ts, others, endings) && OwnFrom(ts, recorded) && Sound(ts, d.bom)
  }

  /** What a journal recorded: every line on its own, and none that reads as a byte order mark. */
  predicate AllSound(recorded: seq<string>, bom: bool) {
    forall i :: 0 <= i < |recorded| ==> SoundLine(recorded[i], bom)
  }

  lemma {:induction false} CarriedReadsBack(d: Doc, ts: seq<TLine>, others: seq<string>, endings: seq<string>,
          recorded: seq<string>)
    requires Carries(d, ts, others, endings, recorded)
    ensures Valid(d) && Parse(Render(d)) == d
  {
    hide Origs, EndingsKept, Parse, Render, Unbroken;
    assert forall i :: 0 <= i < |ts| ==> d.lines[i] == ts[i].line;
    RenderReadsBack(d);
  }

  lemma {:induction false} TakeAway(d: Doc, ts: seq<TLine>, others: seq<string>, endings: seq<string>,
          recorded: seq<string>, i: nat)
    returns (ts': seq<TLine>, others': seq<string>, endings': seq<string>, gone: seq<string>)
    requires Carries(d, ts, others, endings, recorded) && i < |ts|
    ensures Carries(Remove(d, i), ts', others', endings', recorded) && Lost(others, endings, others', endings', gone)
    ensures i < |d.lines| && (gone == [] || gone == [d.lines[i]])
  {
    hide Holds, Lost, SoundLine;
    others', endings', gone := Disown(d, ts, others, endings, i);
    HoldsRemove(d, ts[i := Own(ts[i].line)], others', endings', i);
    ts' := RemoveAt(ts, i);
    assert RemoveAt(ts[i := Own(ts[i].line)], i) == ts';
    LinesHeld(d, ts, others, endings);
  }

  lemma {:induction false} LinesHeld(d: Doc, ts: seq<TLine>, others: seq<string>, endings: seq<string>)
    requires Holds(d, ts, others, endings)
    ensures Valid(d) && |d.lines| == |ts| && forall i :: 0 <= i < |ts| ==> d.lines[i] == ts[i].line
  {
    hide Origs, EndingsKept, AllTerminators;
  }

  lemma {:induction false} PutLineBack(d: Doc, ts: seq<TLine>, others: seq<string>, endings: seq<string>,
          recorded: seq<string>, i: nat, previous: Option<Assignment>)
    returns (ts': seq<TLine>, others': seq<string>, endings': seq<string>, gone: seq<string>)
    requires Carries(d, ts, others, endings, recorded) && i < |ts| && AllSound(recorded, d.bom)
    requires previous.Some? ==> previous.value.line in recorded
    ensures Valid(d) && i < |d.lines| && (gone == [] || gone == [d.lines[i]])
    ensures Carries(PutBack(d, i, previous), ts', others', endings', recorded)
    ensures Lost(others, endings, others', endings', gone) && PutBack(d, i, previous).bom == d.bom
  {
    hide Holds, Lost, SoundLine, Remove;
    LinesHeld(d, ts, others, endings);
    if previous.Some? {
      others', endings', gone := Disown(d, ts, others, endings, i);
      ts' := ts[i := Own(previous.value.line)];
      HoldsSet(d, ts[i := Own(ts[i].line)], others', endings', i, previous.value.line);
      assert ts[i := Own(ts[i].line)][i := Own(previous.value.line)] == ts';
    } else {
      ts', others', endings', gone := TakeAway(d, ts, others, endings, recorded, i);
      BomStays(d, i);
    }
  }

  lemma {:induction false} BomStays(d: Doc, i: nat)
    requires Valid(d)
    ensures Remove(d, i).bom == d.bom
  {
  }

  lemma {:induction false} TableIsThere(lines: seq<string>, name: string)
    requires FindTable(lines, name).Ok? && FindTable(lines, name).value.Some?
    ensures IsTable(lines[FindTable(lines, name).value.value.header], name)
    ensures lines[FindTable(lines, name).value.value.header] != ""
  {
    hide FirstTable;
  }

  lemma {:induction false} EmptyTableGoes(d: Doc, ts: seq<TLine>, others: seq<string>, endings: seq<string>,
          recorded: seq<string>, p: Previous, table: string)
    returns (ts': seq<TLine>, others': seq<string>, endings': seq<string>, gone: seq<string>)
    requires Carries(d, ts, others, endings, recorded) && Valid(d) && p.at.None? && !p.tablePresent
    requires RemoveEmptyTable(d, table, p.separator).Ok?
    ensures var d' := RemoveEmptyTable(d, table, p.separator).value;
      Carries(d', ts', others', endings', recorded) && d'.bom == d.bom
    ensures Lost(others, endings, others', endings', gone) && Emptied(gone, p, table)
  {
    hide Carries, Lost, Remove, IsTable, FindTable, HasText;
    LinesOf(d, ts, others, endings, recorded);
    var range := FindTable(d.lines, table).value.value;
    if HasText(d.lines[range.header + 1..range.end]) {
      ts', others', endings', gone := ts, others, endings, [];
      NothingLost(others, endings);
    } else {
      var h := range.header;
      TableIsThere(d.lines, table);
      BomStays(d, h);
      RemovedLines(d, h);
      ts', others', endings', gone := TakeAway(d, ts, others, endings, recorded, h);
      var d1 := Remove(d, h);
      LinesOf(d1, ts', others', endings', recorded);
      if p.separator && h > 0 && d1.lines[h - 1] == "" {
        BomStays(d1, h - 1);
        var ts1, others1, endings1, gone1 := TakeAway(d1, ts', others', endings', recorded, h - 1);
        LostMore(others, endings, others', endings', others1, endings1, gone, gone1);
        assert gone != [] ==> (gone + gone1)[1..] == gone1;
        assert gone == [] ==> gone + gone1 == gone1;
        ts', others', endings', gone := ts1, others1, endings1, gone + gone1;
      }
    }
  }

  lemma {:induction false} NothingLost(others: seq<string>, endings: seq<string>)
    ensures Lost(others, endings, others, endings, [])
  {
  }

  lemma {:induction false} LinesOf(d: Doc, ts: seq<TLine>, others: seq<string>, endings: seq<string>,
          recorded: seq<string>)
    requires Carries(d, ts, others, endings, recorded)
    ensures Valid(d) && |d.lines| == |ts|
  {
    hide Origs, EndingsKept, AllTerminators, Sound, OwnFrom;
  }

  lemma {:induction false} RestoreAtCarries(d: Doc, ts: seq<TLine>, others: seq<string>, endings: seq<string>,
          recorded: seq<string>, i: nat, p: Previous, table: string)
    returns (ts': seq<TLine>, others': seq<string>, endings': seq<string>, gone: seq<string>)
    requires Carries(d, ts, others, endings, recorded) && Valid(d) && i < |d.lines| && AllSound(recorded, d.bom)
    requires (p.at.Some? ==> p.at.value.line in recorded) && RestoreAt(d, i, p, table).Ok?
    ensures var d' := RestoreAt(d, i, p, table).value;
      Carries(d', ts', others', endings', recorded) && d'.bom == d.bom
    ensures Lost(others, endings, others', endings', gone) && AtMost(gone, d.lines[i], p, table)
  {
    hide Carries, Lost, PutBack, RemoveEmptyTable, IsTable, AllSound;
    LinesOf(d, ts, others, endings, recorded);
    ts', others', endings', gone := PutLineBack(d, ts, others, endings, recorded, i, p.at);
    var d1 := PutBack(d, i, p.at);
    if p.at.None? && !p.tablePresent {
      var ts1, others1, endings1, gone1 := EmptyTableGoes(d1, ts', others', endings', recorded, p, table);
      LostMore(others, endings, others', endings', others1, endings1, gone, gone1);
      assert gone == [d.lines[i]] ==> (gone + gone1)[1..] == gone1;
      assert gone == [] ==> gone + gone1 == gone1;
      ts', others', endings', gone := ts1, others1, endings1, gone + gone1;
    }
  }

  // ---- The three settings ----

  /** The line found is the one at its index. */
  lemma {:induction false} RawLine(lines: seq<string>, table: string, key: string)
    requires RawIn(lines, table, key).Ok? && RawIn(lines, table, key).value.at.Some?
    ensures var at := RawIn(lines, table, key).value.at.value; at.index < |lines| && lines[at.index] == at.line
  {
    hide Assigned, IsTable, FirstTable;
  }

  lemma {:induction false} V2Found(lines: seq<string>, json: InlineTable.Json)
    requires FindV2(lines, json).Ok? && FindV2(lines, json).value.at.Some?
    ensures var at := FindV2(lines, json).value.at.value; at.index < |lines| && lines[at.index] == at.line
  {
    hide RawIn, FindTable, InlineTable.Parse, Scalar;
    if RawIn(lines, FEATURES, MULTI_AGENT_V2).value.at.Some? {
      RawLine(lines, FEATURES, MULTI_AGENT_V2);
    }
    if RawIn(lines, V2_TABLE, ENABLED).Ok? && RawIn(lines, V2_TABLE, ENABLED).value.at.Some? {
      RawLine(lines, V2_TABLE, ENABLED);
    }
  }

  lemma {:induction false} FeatureCarries(d: Doc, ts: seq<TLine>, others: seq<string>, endings: seq<string>,
          recorded: seq<string>, key: string, value: string, line: string, p: Previous)
    returns (ts': seq<TLine>, others': seq<string>, endings': seq<string>, gone: seq<string>)
    requires Carries(d, ts, others, endings, recorded) && Valid(d) && AllSound(recorded, d.bom)
    requires (p.at.Some? ==> p.at.value.line in recorded) && RestoreFeature(d, key, value, line, p).Ok?
    ensures var d' := RestoreFeature(d, key, value, line, p).value;
      Carries(d', ts', others', endings', recorded) && d'.bom == d.bom
    ensures Lost(others, endings, others', endings', gone) && AtMost(gone, line, p, FEATURES)
  {
    hide Carries, Lost, RestoreAt, RawIn, AllSound, AtMost, Scalar;
    RawLine(d.lines, FEATURES, key);
    var at := BooleanIn(d.lines, FEATURES, key).value.at.value;
    ts', others', endings', gone := RestoreAtCarries(d, ts, others, endings, recorded, at.index, p, FEATURES);
  }

  lemma {:induction false} DepthCarries(d: Doc, ts: seq<TLine>, others: seq<string>, endings: seq<string>,
          recorded: seq<string>, p: Previous, depth: nat)
    returns (ts': seq<TLine>, others': seq<string>, endings': seq<string>, gone: seq<string>)
    requires Carries(d, ts, others, endings, recorded) && Valid(d) && AllSound(recorded, d.bom)
    requires (p.at.Some? ==> p.at.value.line in recorded) && RestoreDepth(d, p, depth).Ok?
    ensures var d' := RestoreDepth(d, p, depth).value;
      Carries(d', ts', others', endings', recorded) && d'.bom == d.bom
    ensures Lost(others, endings, others', endings', gone) && AtMost(gone, DepthLine(depth), p, AGENTS)
  {
    hide Carries, Lost, RestoreAt, RawIn, AllSound, AtMost, Scalar, DepthLine;
    RawLine(d.lines, AGENTS, MAX_DEPTH);
    var at := FindDepth(d.lines).value.at.value;
    ts', others', endings', gone := RestoreAtCarries(d, ts, others, endings, recorded, at.index, p, AGENTS);
  }

  lemma {:induction false} V2Carries(d: Doc, ts: seq<TLine>, others: seq<string>, endings: seq<string>,
          recorded: seq<string>, p: Previous, json: InlineTable.Json)
    returns (ts': seq<TLine>, others': seq<string>, endings': seq<string>, gone: seq<string>)
    requires Carries(d, ts, others, endings, recorded) && Valid(d) && AllSound(recorded, d.bom)
    requires (p.at.Some? ==> p.at.value.line in recorded) && RestoreV2(d, p, json).Ok?
    ensures var d' := RestoreV2(d, p, json).value;
      Carries(d', ts', others', endings', recorded) && d'.bom == d.bom
    ensures Lost(others, endings, others', endings', gone)
    ensures ManagedV2Line(p, json).Ok? && AtMost(gone, ManagedV2Line(p, json).value, p, FEATURES)
  {
    hide Carries, Lost, RawIn, AllSound, RestoreFeature, FindV2, PutBack, FindTable, Scalar;
    hide InlineTable.Parse, InlineTable.Managed, AfterEquals, V2Line, V2TableLine, IsTable;
    LinesOf(d, ts, others, endings, recorded);
    if p.inline {
      V2Found(d.lines, json);
      var at := FindV2(d.lines, json).value.at.value;
      ts', others', endings', gone := PutLineBack(d, ts, others, endings, recorded, at.index, p.at);
      PutBackIs(d, at.index, p.at);
    } else if !p.v2Table {
      ts', others', endings', gone := FeatureCarries(d, ts, others, endings, recorded, MULTI_AGENT_V2, "false",
          V2Line(), p);
    } else {
      RawLine(d.lines, V2_TABLE, ENABLED);
      var at := BooleanIn(d.lines, V2_TABLE, ENABLED).value.at.value;
      ts', others', endings', gone := PutLineBack(d, ts, others, endings, recorded, at.index, p.at);
    }
  }

  lemma {:induction false} PutBackIs(d: Doc, i: nat, previous: Option<Assignment>)
    requires Valid(d) && i < |d.lines|
    ensures previous.Some? ==> PutBack(d, i, previous) == SetLine(d, i, previous.value.line)
  {
  }

  // ---- The whole ----

  function LineOf(at: Option<Assignment>): seq<string> {
    if at.Some? then [at.value.line] else []
  }

  /** The lines a journal recorded. */
  function RecordedLines(j: Journal): seq<string>
    requires j.features.Some?
  {
    var f := j.features.value;
    LineOf(j.before.base) + LineOf(j.before.realtime) + LineOf(f.multiAgent.at) + LineOf(f.v2.at) + LineOf(f.depth.at)
  }

  lemma {:induction false} AllRecorded(j: Journal)
    requires j.features.Some?
    ensures var f, r := j.features.value, RecordedLines(j);
      && (j.before.base.Some? ==> j.before.base.value.line in r)
      && (j.before.realtime.Some? ==> j.before.realtime.value.line in r)
      && (f.multiAgent.at.Some? ==> f.multiAgent.at.value.line in r)
      && (f.v2.at.Some? ==> f.v2.at.value.line in r) && (f.depth.at.Some? ==> f.depth.at.value.line in r)
  {
  }

  /** After the route is restored, on the way to the features. */
  lemma {:induction false} RouteCarries(text: string, j: Journal, c: Codec) returns (d: Doc, ts: seq<TLine>)
    requires Terminated(text) && j.features.Some? && Restore(text, j, c).Ok?
    requires AllSound(Parse(text).lines, Parse(text).bom) && AllSound(RecordedLines(j), Parse(text).bom)
    ensures RestoreRoute(Parse(text), j.before, c) == Ok(d) && d.bom == Parse(text).bom
    ensures Carries(d, ts, Origs(Marked(Parse(text).lines)), OthersEndings(Parse(text)), RecordedLines(j))
  {
    hide Parse, SoundLine, Marked, OthersEndings, Terminated, RestoreRoute, RecordedLines, Restore, Origs;
    hide EndingsKept, AllTerminators;
    d, ts := RouteLinesRestored(text, j, c);
    AllRecorded(j);
    RouteKeepsBom(Parse(text), j.before, c);
    forall i | 0 <= i < |ts|
      ensures SoundLine(ts[i].line, d.bom)
    {
      if ts[i].orig.Some? {
        OrigsHold(ts, i);
        KeptOfMarked(Parse(text).lines, ts[i].line);
      }
    }
  }

  lemma {:induction false} KeptOfMarked(lines: seq<string>, line: string)
    requires exists k :: 0 <= k < |Origs(Marked(lines))| && Origs(Marked(lines))[k] == line
    ensures line in lines
  {
    hide IsManaged, Origs;
    var k :| 0 <= k < |Origs(Marked(lines))| && Origs(Marked(lines))[k] == line;
    OrigsFrom(Marked(lines), k);
  }

  lemma {:induction false} OrigsFrom(ts: seq<TLine>, k: nat)
    requires k < |Origs(ts)|
    ensures exists i :: 0 <= i < |ts| && ts[i].orig == Some(Origs(ts)[k])
  {
    var n := |ts| - 1;
    if k < |Origs(ts[..n])| {
      OrigsFrom(ts[..n], k);
      var i :| 0 <= i < n && ts[..n][i].orig == Some(Origs(ts[..n])[k]);
      assert ts[i].orig == Some(Origs(ts)[k]);
    } else {
      assert ts[n].orig == Some(Origs(ts)[k]);
    }
  }

  lemma {:induction false} RouteKeepsBom(d: Doc, before: RouteBefore, c: Codec)
    requires Valid(d) && RestoreRoute(d, before, c).Ok?
    ensures RestoreRoute(d, before, c).value.bom == d.bom
  {
    hide FindTop, Remove;
    CommentsKeepBom(d, |d.lines|);
    var d1 := RemoveComments(d, |d.lines|);
    BomStays(d1, FindTop(d1.lines, BASE_URL, c).value.value.index);
    var d2 := PutBack(d1, FindTop(d1.lines, BASE_URL, c).value.value.index, before.base);
    BomStays(d2, FindTop(d2.lines, REALTIME, c).value.value.index);
  }

  lemma {:induction false} CommentsKeepBom(d: Doc, n: nat)
    requires Valid(d) && n <= |d.lines|
    ensures RemoveComments(d, n).bom == d.bom
    decreases n
  {
    if n > 0 {
      CommentsKeepBom(if IsManagedComment(d.lines[n - 1]) then Remove(d, n - 1) else d, n - 1);
    }
  }

  /** What one restored setting can take away. */
  ghost predicate GoneWith(gone: seq<string>, f: Features, json: InlineTable.Json) {
    exists v2, multiAgent, depth ::
      && gone == v2 + multiAgent + depth && ManagedV2Line(f.v2, json).Ok?
      && AtMost(v2, ManagedV2Line(f.v2, json).value, f.v2, FEATURES)
      && AtMost(multiAgent, MultiAgentLine(), f.multiAgent, FEATURES)
      && AtMost(depth, DepthLine(f.installedDepth), f.depth, AGENTS)
  }

  /** The documents between the steps of restoring. */
  lemma {:induction false} StepsOfRestore(text: string, j: Journal, c: Codec) returns (d1: Doc, d2: Doc, d3: Doc)
    requires j.features.Some? && Restore(text, j, c).Ok? && Valid(RestoreRoute(Parse(text), j.before, c).value)
    ensures var f := j.features.value;
      && RestoreRoute(Parse(text), j.before, c).Ok?
      && RestoreV2(Parse(Render(RestoreRoute(Parse(text), j.before, c).value)), f.v2, c.json) == Ok(d1) && Valid(d1)
      && RestoreFeature(Parse(Render(d1)), MULTI_AGENT, "true", MultiAgentLine(), f.multiAgent) == Ok(d2) && Valid(d2)
      && RestoreDepth(Parse(Render(d2)), f.depth, f.installedDepth) == Ok(d3) && Valid(d3)
      && Restore(text, j, c) == Ok(Render(d3))
  {
    hide Parse, Render, VerifyInstalledRoute, RestoreRoute, SplitLines, RestoreV2, RestoreFeature, RestoreDepth;
    hide MultiAgentLine;
    var f := j.features.value;
    d1 := RestoreV2(Parse(Render(RestoreRoute(Parse(text), j.before, c).value)), f.v2, c.json).value;
    d2 := RestoreFeature(Parse(Render(d1)), MULTI_AGENT, "true", MultiAgentLine(), f.multiAgent).value;
    d3 := RestoreDepth(Parse(Render(d2)), f.depth, f.installedDepth).value;
  }

  /**
   * Restoring Compatibility V1 on any terminated text it accepts, however the user has edited it: the lines the route
   * does not manage are all kept, in order and with their terminators, but for at most one line that reads as the
   * managed line of each setting, the header of each table the installation had made, and the separator recorded
   * before that. Besides the user's lines the result holds only recorded ones.
   */
  lemma {:induction false} UserEditsSurviveFeatures(text: string, j: Journal, c: Codec)
    returns (d: Doc, ts: seq<TLine>, others: seq<string>, endings: seq<string>, gone: seq<string>)
    requires Terminated(text) && j.features.Some? && Restore(text, j, c).Ok?
    requires AllSound(Parse(text).lines, Parse(text).bom) && AllSound(RecordedLines(j), Parse(text).bom)
    ensures Valid(d) && Restore(text, j, c) == Ok(Render(d))
    ensures Holds(d, ts, others, endings) && OwnFrom(ts, RecordedLines(j))
    ensures Lost(Origs(Marked(Parse(text).lines)), OthersEndings(Parse(text)), others, endings, gone)
    ensures GoneWith(gone, j.features.value, c.json)
  {
    hide Parse, Render, Marked, OthersEndings, Terminated, RestoreRoute, RestoreV2, RestoreFeature, RestoreDepth;
    hide RecordedLines, Restore, Origs, Lost, AllSound, AtMost, MultiAgentLine, DepthLine, ManagedV2Line, Holds;
    hide Sound, OwnFrom;
    var f, r := j.features.value, RecordedLines(j);
    AllRecorded(j);
    var d0, ts0 := RouteCarries(text, j, c);
    var o0, e0 := Origs(Marked(Parse(text).lines)), OthersEndings(Parse(text));
    LinesOf(d0, ts0, o0, e0, r);
    var d1, d2, d3 := StepsOfRestore(text, j, c);
    CarriedReadsBack(d0, ts0, o0, e0, r);
    var ts1, o1, e1, g1 := V2Carries(d0, ts0, o0, e0, r, f.v2, c.json);
    CarriedReadsBack(d1, ts1, o1, e1, r);
    var ts2, o2, e2, g2 := FeatureCarries(d1, ts1, o1, e1, r, MULTI_AGENT, "true", MultiAgentLine(), f.multiAgent);
    CarriedReadsBack(d2, ts2, o2, e2, r);
    var ts3, o3, e3, g3 := DepthCarries(d2, ts2, o2, e2, r, f.depth, f.installedDepth);
    LostMore(o0, e0, o1, e1, o2, e2, g1, g2);
    LostMore(o0, e0, o2, e2, o3, e3, g1 + g2, g3);
    d, ts, others, endings, gone := d3, ts3, o3, e3, g1 + g2 + g3;
  }
}
