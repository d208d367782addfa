/**
 * Restoring a file the user has edited meanwhile: whatever else was changed, restoring the native route touches
 * the managed lines only, and keeps every other line and its terminator, in order.
 */
module UserEdits {
  import opened Common
  import opened Toml
  import opened ConfigLines
  import opened Document
  import opened Tracking
  import opened Regions
  import opened ConfigEdit
  import opened RouteEdits
  import RouteRoundTrip
  import opened Unterminated
  import opened Separation

  /** A managed comment, or a line before the first table that sets one of the two route keys. */
  predicate IsManaged(lines: seq<string>, i: nat)
    requires i < |lines|
  {
    IsManagedComment(lines[i])
    || (i < FirstTable(lines) && (Assigned(lines[i], BASE_URL).Some? || Assigned(lines[i], REALTIME).Some?))
  }

  /** The lines of a file, all but the managed ones standing for themselves. */
  function Marked(lines: seq<string>): seq<TLine> {
    seq(|lines|, i requires 0 <= i < |lines| => TLine(lines[i], if IsManaged(lines, i) then None else Some(lines[i])))
  }

  /** The terminators of the lines that stand for themselves, the file's last one at the end. */
  function OthersEndings(d: Doc): seq<string>
    requires Valid(d)
  {
    var kept := KeptEndings(Marked(d.lines), d.endings);
    if kept == [] || d.endings == [] then kept else kept[|kept| - 1 := d.endings[|d.endings| - 1]]
  }

  /** A line that stands for one of the user's is that line. */
  predicate Verbatim(ts: seq<TLine>) {
    forall i :: 0 <= i < |ts| && ts[i].orig.Some? ==> ts[i].orig.value == ts[i].line
  }

  /** The document consists of the user's lines, in order and with their terminators, and lines of one's own. */
  ghost predicate Holds(d: Doc, ts: seq<TLine>, others: seq<string>, endings: seq<string>) {
    && Valid(d) && d.lines == Lines(ts) && Origs(ts) == others && Verbatim(ts)
    && AllTerminators(d.endings) && EndingsKept(ts, d.endings, endings)
  }

  // ---- Steps ----

  lemma {:induction false} HoldsRemove(d: Doc, ts: seq<TLine>, others: seq<string>, endings: seq<string>, i: nat)
    requires Holds(d, ts, others, endings) && i < |ts| && ts[i].orig.None?
    ensures Holds(Remove(d, i), RemoveAt(ts, i), others, endings)
  {
    hide EndingsKept, AllTerminators, RemoveEnding, KeptEndings, Origs;
    assert |ts| == |d.endings|;
    RemoveEndings(ts, d.endings, endings, i);
    RemoveKeepsEndings(ts, Lines(ts), i);
    assert Lines(RemoveAt(ts, i)) == RemoveAt(Lines(ts), i);
  }

  lemma {:induction false} HoldsSet(d: Doc, ts: seq<TLine>, others: seq<string>, endings: seq<string>, i: nat,
          line: string)
    requires Holds(d, ts, others, endings) && i < |ts| && ts[i].orig.None?
    ensures Holds(SetLine(d, i, line), ts[i := Own(line)], others, endings)
  {
    hide AllTerminators, KeptEndings, Origs;
    SetKeepsEndings(ts, d.endings, i, line);
    assert ts[i].(line := line) == Own(line);
    assert Lines(ts[i := Own(line)]) == Lines(ts)[i := line];
  }

  /** Put the recorded line in place of one's own, or take that away. */
  function PutTracked(ts: seq<TLine>, i: nat, previous: Option<Assignment>): seq<TLine>
    requires i < |ts|
  {
    if previous.Some? then ts[i := Own(previous.value.line)] else RemoveAt(ts, i)
  }

  lemma {:induction false} HoldsPutBack(d: Doc, ts: seq<TLine>, others: seq<string>, endings: seq<string>, i: nat,
          previous: Option<Assignment>)
    requires Holds(d, ts, others, endings) && i < |ts| && ts[i].orig.None?
    ensures i < |d.lines| && Holds(PutBack(d, i, previous), PutTracked(ts, i, previous), others, endings)
  {
    hide EndingsKept, AllTerminators, Origs, Remove;
    if previous.Some? {
      HoldsSet(d, ts, others, endings, i, previous.value.line);
    } else {
      HoldsRemove(d, ts, others, endings, i);
    }
  }

  // ---- The comments ----

  lemma {:induction false} NoHeaderBefore(lines: seq<string>, i: nat)
    requires i < FirstTable(lines)
    ensures !IsHeader(lines[i])
  {
    if i > 0 {
      NoHeaderBefore(lines[1..], i - 1);
    }
  }

  lemma {:induction false} FirstTableRemove(lines: seq<string>, i: nat)
    requires i < |lines| && !IsHeader(lines[i])
    ensures FirstTable(RemoveAt(lines, i)) == if i < FirstTable(lines) then FirstTable(lines) - 1 else FirstTable(lines)
  {
    hide IsHeader;
    if i == 0 {
      assert RemoveAt(lines, 0) == lines[1..];
    } else {
      FirstTableRemove(lines[1..], i - 1);
      assert RemoveAt(lines, i)[1..] == RemoveAt(lines[1..], i - 1);
    }
  }

  lemma {:induction false} FirstTableSet(lines: seq<string>, i: nat, line: string)
    requires i < FirstTable(lines)
    ensures FirstTable(lines[i := line]) <= FirstTable(lines)
    ensures !IsHeader(line) ==> FirstTable(lines[i := line]) == FirstTable(lines)
  {
    hide IsHeader;
    if i > 0 {
      FirstTableSet(lines[1..], i - 1, line);
      assert lines[i := line][1..] == lines[1..][i - 1 := line];
    }
  }

  lemma {:induction false} CommentIsNoHeader(line: string)
    requires IsManagedComment(line)
    ensures !IsHeader(line)
  {
    OwnerIs();
    RouteCommentIs();
    assert OWNER <= OLD_COMMENT && OWNER[0] == '#';
    assert TrimStart(line) == line;
  }

  /** Exactly the managed lines stand for no line of the user's. */
  ghost predicate Faithful(ts: seq<TLine>) {
    forall i :: 0 <= i < |ts| ==> (ts[i].orig.None? <==> IsManaged(Lines(ts), i))
  }

  lemma {:induction false} FaithfulRemove(ts: seq<TLine>, p: nat)
    requires p < |ts| && Faithful(ts) && IsManagedComment(ts[p].line)
    ensures Faithful(RemoveAt(ts, p))
  {
    hide IsManagedComment, Assigned, FirstTable;
    var ls, ts' := Lines(ts), RemoveAt(ts, p);
    CommentIsNoHeader(ts[p].line);
    FirstTableRemove(ls, p);
    assert Lines(ts') == RemoveAt(ls, p);
    forall i | 0 <= i < |ts'|
      ensures ts'[i].orig.None? <==> IsManaged(Lines(ts'), i)
    {
      var j := if i < p then i else i + 1;
      assert ts'[i] == ts[j] && RemoveAt(ls, p)[i] == ls[j];
    }
  }

  predicate OneRealtime(lines: seq<string>) {
    forall i, j :: 0 <= i < j < FirstTable(lines) ==>
        Assigned(lines[i], REALTIME).None? || Assigned(lines[j], REALTIME).None?
  }

  lemma {:induction false} OneRealtimeRemove(lines: seq<string>, p: nat)
    requires OneRealtime(lines) && p < |lines| && IsManagedComment(lines[p])
    ensures OneRealtime(RemoveAt(lines, p))
  {
    hide IsManagedComment, Assigned, FirstTable, IsHeader;
    CommentIsNoHeader(lines[p]);
    FirstTableRemove(lines, p);
    var ls := RemoveAt(lines, p);
    assert forall i :: 0 <= i < |ls| ==> ls[i] == lines[if i < p then i else i + 1];
  }

  lemma {:induction false} CommentsRemoved(d: Doc, ts: seq<TLine>, others: seq<string>, endings: seq<string>, n: nat)
    returns (ts': seq<TLine>)
    requires Holds(d, ts, others, endings) && Faithful(ts) && n <= |ts| && OneRealtime(d.lines)
    requires forall i :: n <= i < |ts| ==> !IsManagedComment(ts[i].line)
    ensures n <= |d.lines| && Holds(RemoveComments(d, n), ts', others, endings) && Faithful(ts')
    ensures OneRealtime(RemoveComments(d, n).lines)
    ensures forall i :: 0 <= i < |ts'| ==> !IsManagedComment(ts'[i].line)
    decreases n
  {
    hide EndingsKept, AllTerminators, Origs, Remove, IsManagedComment, IsManaged;
    ts' := ts;
    if n > 0 {
      var p := n - 1;
      assert d.lines[p] == ts[p].line;
      if IsManagedComment(ts[p].line) {
        OwnWhenComment(ts, p);
        FaithfulRemove(ts, p);
        OneRealtimeRemove(d.lines, p);
        RemovedLines(d, p);
        HoldsRemove(d, ts, others, endings, p);
        ts' := CommentsRemoved(Remove(d, p), RemoveAt(ts, p), others, endings, p);
      } else {
        ts' := CommentsRemoved(d, ts, others, endings, p);
      }
    }
  }

  lemma {:induction false} RemovedLines(d: Doc, p: nat)
    requires Valid(d) && p < |d.lines|
    ensures Remove(d, p).lines == RemoveAt(d.lines, p)
  {
  }

  lemma {:induction false} OwnWhenComment(ts: seq<TLine>, p: nat)
    requires Faithful(ts) && p < |ts| && IsManagedComment(ts[p].line)
    ensures ts[p].orig.None?
  {
    hide IsManagedComment, FirstTable, Assigned;
    assert IsManaged(Lines(ts), p);
  }

  // ---- The two keys ----

  /** A key that is found is set by that line only, before the first table. */
  lemma {:induction false} FoundOnce(lines: seq<string>, key: string, c: Codec)
    requires FindTop(lines, key, c).Ok?
    ensures var found := FindTop(lines, key, c).value;
      && (found.Some? ==>
            && found.value.index < FirstTable(lines)
            && lines[found.value.index] == found.value.line && Assigned(found.value.line, key).Some?)
      && forall i :: 0 <= i < FirstTable(lines) && (found.None? || i != found.value.index) ==>
           Assigned(lines[i], key).None?
  {
    hide FindTop, Assigned, Flat, IsHeader, FirstTable;
    var rs := Tree(Kept(lines));
    TreeIsWellFormed(Kept(lines));
    KeptLines(lines);
    TopAt(rs);
    var found := FindTop(lines, key, c).value;
    FoundAlone(rs, key, if found.Some? then Some(found.value.index) else None, c);
    if found.Some? {
      FoundIn(lines, key, c);
    }
  }

  /** Own lines: the recorded one put in at `a`, and before the first table whatever sets the realtime key. */
  ghost predicate RouteTracked(ts: seq<TLine>, a: Option<nat>, line: string, r: Option<nat>) {
    && (a.Some? ==> a.value < |ts| && ts[a.value] == Own(line))
    && (r.Some? ==> r.value < |ts| && ts[r.value].orig.None?)
    && (forall i :: 0 <= i < |ts| && ts[i].orig.None? ==> a == Some(i) || r == Some(i))
    && forall i :: 0 <= i < FirstTable(Lines(ts)) && Assigned(ts[i].line, REALTIME).Some? ==> ts[i].orig.None?
  }

  /** Once the comments are gone, the own lines are those that set the two keys. */
  lemma {:induction false} OwnLines(ts: seq<TLine>, ls: seq<string>, base: nat, r: Option<nat>)
    requires ls == Lines(ts) && Faithful(ts) && forall i :: 0 <= i < |ts| ==> !IsManagedComment(ts[i].line)
    requires SetOnlyBy(ls, BASE_URL, Some(base)) && SetOnlyBy(ls, REALTIME, r)
    ensures base < |ts| && ts[base].orig.None? && (r.Some? ==> r.value < |ts| && ts[r.value].orig.None?)
    ensures forall i :: 0 <= i < |ts| && ts[i].orig.None? ==> i == base || r == Some(i)
    ensures forall i :: 0 <= i < FirstTable(ls) && Assigned(ts[i].line, REALTIME).Some? ==> ts[i].orig.None?
  {
    hide Assigned, FirstTable, IsHeader, IsManagedComment;
    assert IsManaged(ls, base);
    if r.Some? {
      assert IsManaged(ls, r.value);
    }
    forall i | 0 <= i < |ts|
      ensures ts[i].orig.None? ==> i == base || r == Some(i)
      ensures i < FirstTable(ls) && Assigned(ts[i].line, REALTIME).Some? ==> ts[i].orig.None?
    {
      assert ls[i] == ts[i].line;
      assert ts[i].orig.None? <==> IsManaged(ls, i);
    }
  }

  /** Before the first table, a key is set by that line and no other. */
  predicate SetOnlyBy(lines: seq<string>, key: string, at: Option<nat>) {
    && (at.Some? ==> at.value < FirstTable(lines) && Assigned(lines[at.value], key).Some?)
    && forall i :: 0 <= i < FirstTable(lines) && at != Some(i) ==> Assigned(lines[i], key).None?
  }

  lemma {:induction false} BaseReplaced(ts: seq<TLine>, ls: seq<string>, base: nat, r: Option<nat>, line: string)
    requires ls == Lines(ts) && Faithful(ts) && forall i :: 0 <= i < |ts| ==> !IsManagedComment(ts[i].line)
    requires SetOnlyBy(ls, BASE_URL, Some(base)) && SetOnlyBy(ls, REALTIME, r) && r != Some(base)
    ensures base < |ts| && RouteTracked(ts[base := Own(line)], Some(base), line, r)
    ensures r.Some? && !IsHeader(line) ==>
      r.value < FirstTable(Lines(ts[base := Own(line)]))
          && Assigned(ts[base := Own(line)][r.value].line, REALTIME).Some?
  {
    hide Assigned, FirstTable, IsHeader, IsManagedComment, Faithful;
    OwnLines(ts, ls, base, r);
    FirstTableSet(ls, base, line);
    assert Lines(ts[base := Own(line)]) == ls[base := line];
  }

  lemma {:induction false} KeyAt(lines: seq<string>, r: Option<nat>)
    requires SetOnlyBy(lines, REALTIME, r)
    ensures r.Some? ==> r.value < FirstTable(lines) && Assigned(lines[r.value], REALTIME).Some?
  {
  }

  lemma {:induction false} BaseRemoved(ts: seq<TLine>, ls: seq<string>, base: nat, r: Option<nat>)
    returns (r': Option<nat>)
    requires ls == Lines(ts) && Faithful(ts) && forall i :: 0 <= i < |ts| ==> !IsManagedComment(ts[i].line)
    requires SetOnlyBy(ls, BASE_URL, Some(base)) && SetOnlyBy(ls, REALTIME, r) && r != Some(base)
    ensures base < |ts| && RouteTracked(RemoveAt(ts, base), None, "", r')
    ensures r'.Some? ==>
      r'.value < FirstTable(Lines(RemoveAt(ts, base))) && Assigned(RemoveAt(ts, base)[r'.value].line, REALTIME).Some?
  {
    hide Assigned, FirstTable, IsHeader, IsManagedComment, Faithful;
    OwnLines(ts, ls, base, r);
    KeyAt(ls, r);
    NoHeaderBefore(ls, base);
    FirstTableRemove(ls, base);
    var ts' := RemoveAt(ts, base);
    assert Lines(ts') == RemoveAt(ls, base);
    r' := if r.None? || r.value < base then r else Some(r.value - 1);
    hide SetOnlyBy;
    forall i | 0 <= i < |ts'|
      ensures ts'[i].orig.None? ==> r' == Some(i)
      ensures i < FirstTable(Lines(ts')) && Assigned(ts'[i].line, REALTIME).Some? ==> ts'[i].orig.None?
    {
      var k := if i < base then i else i + 1;
      assert ts'[i] == ts[k];
    }
  }

  /** Every line of the result is the user's or one of the two recorded lines. */
  ghost predicate OnlyRecorded(ts: seq<TLine>, before: RouteBefore) {
    forall i :: 0 <= i < |ts| && ts[i].orig.None? ==>
      || (before.base.Some? && ts[i].line == before.base.value.line)
      || (before.realtime.Some? && ts[i].line == before.realtime.value.line)
  }

  lemma {:induction false} RealtimePutBack(ts: seq<TLine>, a: Option<nat>, r: Option<nat>, before: RouteBefore, b: nat)
    requires RouteTracked(ts, a, if before.base.Some? then before.base.value.line else "", r)
    requires (a.Some? <==> before.base.Some?) && (r.Some? ==> r == Some(b)) && b < |ts| && ts[b].orig.None?
    ensures OnlyRecorded(PutTracked(ts, b, before.realtime), before)
  {
    hide FirstTable, Assigned;
    var ts' := PutTracked(ts, b, before.realtime);
    forall i | 0 <= i < |ts'| && ts'[i].orig.None?
      ensures (before.base.Some? && ts'[i].line == before.base.value.line)
           || (before.realtime.Some? && ts'[i].line == before.realtime.value.line)
    {
      if before.realtime.None? {
        assert ts'[i] == ts[if i < b then i else i + 1];
      }
    }
  }

  /** What restoring the route does once the comments are gone. */
  function KeysRestored(d: Doc, before: RouteBefore, c: Codec): Result<Doc>
    requires Valid(d)
  {
    var base :- FindTop(d.lines, BASE_URL, c);
    if base.None? then Err("missing route")
    else
      var d2 := PutBack(d, base.value.index, before.base);
      var realtime :- FindTop(d2.lines, REALTIME, c);
      if realtime.None? then Err("missing realtime route") else Ok(PutBack(d2, realtime.value.index, before.realtime))
  }

  lemma {:induction false} RestoreRouteIs(d: Doc, before: RouteBefore, c: Codec)
    requires Valid(d)
    ensures Valid(RemoveComments(d, |d.lines|))
      && RestoreRoute(d, before, c) == KeysRestored(RemoveComments(d, |d.lines|), before, c)
  {
    hide FindTop, RemoveComments, PutBack;
  }

  function RealtimeIn(lines: seq<string>): (r: Option<nat>)
    ensures r.Some? ==> r.value < FirstTable(lines) && Assigned(lines[r.value], REALTIME).Some?
    ensures r.None? ==> forall i :: 0 <= i < FirstTable(lines) ==> Assigned(lines[i], REALTIME).None?
  {
    Last(lines, FirstTable(lines))
  }

  function Last(lines: seq<string>, n: nat): (r: Option<nat>)
    requires n <= |lines|
    ensures r.Some? ==> r.value < n && Assigned(lines[r.value], REALTIME).Some?
    ensures r.None? ==> forall i :: 0 <= i < n ==> Assigned(lines[i], REALTIME).None?
  {
    if n == 0 then None else if Assigned(lines[n - 1], REALTIME).Some? then Some(n - 1) else Last(lines, n - 1)
  }

  lemma {:induction false} RouteKeysPutBack(d: Doc, ts: seq<TLine>, others: seq<string>, endings: seq<string>,
          before: RouteBefore, c: Codec)
    returns (ts': seq<TLine>)
    requires Holds(d, ts, others, endings) && Faithful(ts) && OneRealtime(d.lines)
    requires forall i :: 0 <= i < |ts| ==> !IsManagedComment(ts[i].line)
    requires KeysRestored(d, before, c).Ok?
    ensures Holds(KeysRestored(d, before, c).value, ts', others, endings) && OnlyRecorded(ts', before)
  {
    hide FindTop, Assigned, IsManagedComment, Origs, EndingsKept, AllTerminators, FirstTable, IsHeader, PutBack;
    hide Faithful;
    var base := FindTop(d.lines, BASE_URL, c).value.value.index;
    FoundOnce(d.lines, BASE_URL, c);
    var r := RealtimeIn(d.lines);
    NotBoth(d.lines[base]);
    KeysSetOnce(d.lines, base, r);
    OwnLines(ts, d.lines, base, r);
    HoldsPutBack(d, ts, others, endings, base, before.base);
    var d2, ts2 := PutBack(d, base, before.base), PutTracked(ts, base, before.base);
    var a, r';
    if before.base.Some? {
      a, r' := Some(base), r;
      BaseReplaced(ts, d.lines, base, r, before.base.value.line);
    } else {
      a := None;
      r' := BaseRemoved(ts, d.lines, base, r);
    }
    var b := FindTop(d2.lines, REALTIME, c).value.value.index;
    FoundOnce(d2.lines, REALTIME, c);
    RealtimeIsOwn(ts2, a, if before.base.Some? then before.base.value.line else "", r', b);
    HoldsPutBack(d2, ts2, others, endings, b, before.realtime);
    RealtimePutBack(ts2, a, r', before, b);
    ts' := PutTracked(ts2, b, before.realtime);
  }

  lemma {:induction false} KeysSetOnce(lines: seq<string>, base: nat, r: Option<nat>)
    requires OneRealtime(lines) && r == RealtimeIn(lines) && base < FirstTable(lines)
      && Assigned(lines[base], BASE_URL).Some?
    requires forall i :: 0 <= i < FirstTable(lines) && i != base ==> Assigned(lines[i], BASE_URL).None?
    requires Assigned(lines[base], BASE_URL).None? || Assigned(lines[base], REALTIME).None?
    ensures SetOnlyBy(lines, BASE_URL, Some(base)) && SetOnlyBy(lines, REALTIME, r) && r != Some(base)
  {
    hide Assigned, FirstTable, Last;
    if r.Some? {
      forall i | 0 <= i < FirstTable(lines) && i != r.value
        ensures Assigned(lines[i], REALTIME).None?
      {
        assert i < r.value || r.value < i;
      }
    }
  }

  /** The line found for the realtime key is one of one's own, and the one known when there is one. */
  lemma {:induction false} RealtimeIsOwn(ts: seq<TLine>, a: Option<nat>, line: string, r: Option<nat>, b: nat)
    requires RouteTracked(ts, a, line, r) && SetOnlyBy(Lines(ts), REALTIME, Some(b))
    requires r.Some? && !(a.Some? && IsHeader(line)) ==>
      r.value < FirstTable(Lines(ts)) && Assigned(ts[r.value].line, REALTIME).Some?
    ensures b < |ts| && ts[b].orig.None? && (r.Some? ==> r == Some(b))
  {
    hide Assigned, FirstTable, IsHeader;
    assert Lines(ts)[b] == ts[b].line;
    if r.Some? && r != Some(b) {
      assert a == Some(b) && ts[b].line == line;
      AssignsNoHeader(line);
    }
  }

  lemma {:induction false} NotBoth(line: string)
    ensures Assigned(line, BASE_URL).None? || Assigned(line, REALTIME).None?
  {
    hide Assigned;
    RouteKeys();
    if Assigned(line, BASE_URL).Some? && Assigned(line, REALTIME).Some? {
      RouteRoundTrip.AssignedAfter(line, BASE_URL);
      OtherKey(line, BASE_URL, REALTIME);
    }
  }

  /** A line that sets the realtime key is no header. */
  lemma {:induction false} AssignsNoHeader(line: string)
    ensures Assigned(line, REALTIME).Some? ==> !IsHeader(line)
  {
    RouteKeys();
    if Assigned(line, REALTIME).Some? {
      KeyChars(REALTIME, 0);
      assert REALTIME[0] == TrimStart(line)[0];
    }
  }

  // ---- The whole ----

  lemma {:induction false} MarkedHolds(d: Doc)
    requires Clean(d)
    ensures Valid(d) && Holds(d, Marked(d.lines), Origs(Marked(d.lines)), OthersEndings(d)) && Faithful(Marked(d.lines))
  {
    hide IsManaged, Origs, KeptEndings, IsTerminator;
    assert Lines(Marked(d.lines)) == d.lines;
  }

  /** Restoring the route keeps every line that is not managed by it. */
  lemma {:induction false} RouteLinesRestored(text: string, j: Journal, c: Codec) returns (d: Doc, ts: seq<TLine>)
    requires Terminated(text) && Restore(text, j, c).Ok?
    ensures RestoreRoute(Parse(text), j.before, c) == Ok(d)
    ensures Holds(d, ts, Origs(Marked(Parse(text).lines)), OthersEndings(Parse(text))) && OnlyRecorded(ts, j.before)
  {
    hide FindTop, Assigned, IsManagedComment, Origs, KeptEndings, EndingsKept, AllTerminators, Clean, Parse, Render;
    hide Terminated;
    hide VerifyInstalledRoute, SplitLines, RemoveComments, IsManaged, OthersEndings, PutBack, FirstTable, IsHeader;
    hide Marked;
    var d0 := Parse(text);
    TerminatedIsClean(text);
    MarkedHolds(d0);
    InstalledOnce(text, j, c);
    var others, endings := Origs(Marked(d0.lines)), OthersEndings(d0);
    RestoresRoute(text, j, c);
    d := RestoreRoute(d0, j.before, c).value;
    MarkedSize(d0.lines);
    var ts1 := CommentsRemoved(d0, Marked(d0.lines), others, endings, |d0.lines|);
    RestoreRouteIs(d0, j.before, c);
    ts := RouteKeysPutBack(RemoveComments(d0, |d0.lines|), ts1, others, endings, j.before, c);
  }

  /**
   * Restoring a native route on any terminated text it accepts, however the user has edited it: the result holds
   * every line that is not managed, in order and with its terminator, and besides those only the recorded lines.
   */
  lemma {:induction false} UserEditsSurvive(text: string, j: Journal, c: Codec) returns (d: Doc, ts: seq<TLine>)
    requires Terminated(text) && j.features.None? && Restore(text, j, c).Ok?
    ensures Valid(d) && Restore(text, j, c) == Ok(Render(d))
    ensures Holds(d, ts, Origs(Marked(Parse(text).lines)), OthersEndings(Parse(text))) && OnlyRecorded(ts, j.before)
  {
    hide Parse, Render, Holds, OnlyRecorded, Marked, OthersEndings, RestoreRoute, Terminated;
    d, ts := RouteLinesRestored(text, j, c);
    RestoredDoc(text, j, c);
  }

  lemma {:induction false} RestoresRoute(text: string, j: Journal, c: Codec)
    requires Restore(text, j, c).Ok?
    ensures RestoreRoute(Parse(text), j.before, c).Ok?
  {
    hide Parse, Render, VerifyInstalledRoute, RestoreRoute, SplitLines, RestoreV2, RestoreFeature, RestoreDepth;
  }

  lemma {:induction false} RestoredDoc(text: string, j: Journal, c: Codec)
    requires j.features.None? && Restore(text, j, c).Ok?
    ensures RestoreRoute(Parse(text), j.before, c).Ok?
    ensures Restore(text, j, c) == Ok(Render(RestoreRoute(Parse(text), j.before, c).value))
  {
    hide Parse, Render, VerifyInstalledRoute, RestoreRoute, SplitLines;
  }

  lemma {:induction false} MarkedSize(lines: seq<string>)
    ensures |Marked(lines)| == |lines|
  {
  }

  /** A file that passes the check sets the realtime key once. */
  lemma {:induction false} InstalledOnce(text: string, j: Journal, c: Codec)
    requires Restore(text, j, c).Ok?
    ensures OneRealtime(Parse(text).lines)
  {
    hide Parse, SplitLines, FindTop, Assigned, FirstTable, RestoreRoute, ReadRoute, VerifyFeatures, RestoreV2;
    hide RestoreFeature, RestoreDepth;
    SplitLinesAgree(text);
    FoundOnce(SplitLines(text), REALTIME, c);
  }
}
