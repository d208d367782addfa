/**
 * Proof tool: a document being edited, seen as lines that either stand for a line of the original or are the
 * editor's own. Whatever is inserted and removed, the terminators of the original lines are never lost.
 */
module Tracking {
  import opened Common
  import opened Document

  /** A line and the original line it stands for, if any. */
  datatype TLine = TLine(line: string, orig: Option<string>)

  function Own(line: string): TLine {
    TLine(line, None)
  }

  function Lines(ts: seq<TLine>): seq<string> {
    seq(|ts|, i requires 0 <= i < |ts| => ts[i].line)
  }

  function Kept(lines: seq<string>): seq<TLine> {
    seq(|lines|, i requires 0 <= i < |lines| => TLine(lines[i], Some(lines[i])))
  }

  /** The originals of the lines that stand for one, in order. */
  function Origs(ts: seq<TLine>): seq<string> {
    if ts == [] then []
    else
      var n := |ts| - 1;
      Origs(ts[..n]) + if ts[n].orig.Some? then [ts[n].orig.value] else []
  }

  /** The terminators of the lines that stand for an original. */
  function KeptEndings(ts: seq<TLine>, endings: seq<string>): seq<string>
    requires |ts| == |endings|
  {
    if ts == [] then []
    else
      var n := |ts| - 1;
      KeptEndings(ts[..n], endings[..n]) + if ts[n].orig.Some? then [endings[n]] else []
  }

  predicate SameButLast(a: seq<string>, b: seq<string>) {
    |a| == |b| && forall i :: 0 <= i < |a| - 1 ==> a[i] == b[i]
  }

  /** The first line that stands for an original, and the own lines before it, do not start with a byte order mark. */
  predicate FrontOk(ts: seq<TLine>) {
    ts == [] || (NoBom(ts[0].line) && (ts[0].orig.None? ==> FrontOk(ts[1..])))
  }

  predicate AllTerminators(endings: seq<string>) {
    forall i :: 0 <= i < |endings| ==> IsTerminator(endings[i])
  }

  predicate AllUnbroken(ts: seq<TLine>) {
    forall i :: 0 <= i < |ts| ==> Unbroken(ts[i].line)
  }

  /** The terminators still hold what the original's were: those of its lines, the last one at the end. */
  predicate EndingsKept(ts: seq<TLine>, endings: seq<string>, original: seq<string>) {
    && |ts| == |endings|
    && SameButLast(KeptEndings(ts, endings), original)
    && (endings != [] && original != [] ==> endings[|endings| - 1] == original[|original| - 1])
  }

  ghost predicate Tracks(d: Doc, ts: seq<TLine>, d0: Doc) {
    && Clean(d0) && Valid(d) && d.bom == d0.bom
    && d.lines == Lines(ts) && Origs(ts) == d0.lines
    && AllTerminators(d.endings) && AllUnbroken(ts) && (d0.bom || FrontOk(ts))
    && EndingsKept(ts, d.endings, d0.endings)
  }

  // ---- Terminators ----

  lemma {:induction false} InsertKeepsEndings(ts: seq<TLine>, endings: seq<string>, at: nat, t: TLine, e: string)
    requires |ts| == |endings| && at <= |ts| && t.orig.None?
    ensures KeptEndings(InsertAt(ts, at, t), InsertAt(endings, at, e)) == KeptEndings(ts, endings)
    ensures Origs(InsertAt(ts, at, t)) == Origs(ts)
  {
    var n := |ts|;
    var ts', es' := InsertAt(ts, at, t), InsertAt(endings, at, e);
    if at == n {
      assert ts'[..n] == ts && es'[..n] == endings;
    } else {
      InsertKeepsEndings(ts[..n - 1], endings[..n - 1], at, t, e);
      assert ts'[..n] == InsertAt(ts[..n - 1], at, t) && es'[..n] == InsertAt(endings[..n - 1], at, e);
    }
  }

  lemma {:induction false} RemoveKeepsEndings(ts: seq<TLine>, endings: seq<string>, at: nat)
    requires |ts| == |endings| && at < |ts| && ts[at].orig.None?
    ensures KeptEndings(RemoveAt(ts, at), RemoveAt(endings, at)) == KeptEndings(ts, endings)
    ensures Origs(RemoveAt(ts, at)) == Origs(ts)
  {
    var ts', es' := RemoveAt(ts, at), RemoveAt(endings, at);
    assert InsertAt(ts', at, ts[at]) == ts && InsertAt(es', at, endings[at]) == endings;
    InsertKeepsEndings(ts', es', at, ts[at], endings[at]);
  }

  /** Changing the last terminator changes at most the last kept one. */
  lemma {:induction false} LastEndingOnly(ts: seq<TLine>, endings: seq<string>, e: string)
    requires |ts| == |endings| && ts != []
    ensures SameButLast(KeptEndings(ts, endings[|ts| - 1 := e]), KeptEndings(ts, endings))
  {
    var n := |ts| - 1;
    assert endings[n := e][..n] == endings[..n];
  }

  lemma {:induction false} SameTransitive(a: seq<string>, b: seq<string>, c: seq<string>)
    requires SameButLast(a, b) && SameButLast(b, c)
    ensures SameButLast(a, c)
  {
  }

  lemma {:induction false} DominantIsTerminator(endings: seq<string>)
    requires AllTerminators(endings)
    ensures IsTerminator(Dominant(endings))
  {
    if endings != [] {
      assert IsTerminator(endings[0]);
    }
  }

  lemma {:induction false} InsertEndings(ts: seq<TLine>, endings: seq<string>, original: seq<string>, at: nat, t: TLine)
    requires EndingsKept(ts, endings, original) && AllTerminators(endings) && at <= |ts| && t.orig.None?
    requires ts == [] ==> original == []
    ensures EndingsKept(InsertAt(ts, at, t), InsertEnding(endings, at), original)
    ensures AllTerminators(InsertEnding(endings, at))
  {
    var n := |ts|;
    DominantIsTerminator(endings);
    if at < n {
      hide IsTerminator;
      InsertKeepsEndings(ts, endings, at, t, endings[at]);
    } else if n == 0 {
      hide IsTerminator;
      assert InsertAt(ts, at, t)[..0] == [];
      assert KeptEndings(InsertAt(ts, at, t), InsertEnding(endings, at)) == [];
    } else {
      hide *;
      AppendEndings(ts, endings, original, t);
    }
  }

  lemma {:induction false} AppendEndings(ts: seq<TLine>, endings: seq<string>, original: seq<string>, t: TLine)
    requires EndingsKept(ts, endings, original) && AllTerminators(endings) && ts != [] && t.orig.None?
    requires IsTerminator(Dominant(endings)) && |ts| == |endings|
    ensures EndingsKept(InsertAt(ts, |ts|, t), InsertEnding(endings, |ts|), original)
    ensures AllTerminators(InsertEnding(endings, |ts|))
  {
    hide IsTerminator, KeptEndings, Dominant;
    var n, d := |ts|, Dominant(endings);
    var changed := endings[n - 1 := d];
    LastEndingOnly(ts, endings, d);
    InsertKeepsEndings(ts, changed, n, t, endings[n - 1]);
    assert InsertAt(changed, n, endings[n - 1]) == InsertEnding(endings, n);
    SameTransitive(KeptEndings(ts, changed), KeptEndings(ts, endings), original);
  }

  lemma {:induction false} RemoveEndings(ts: seq<TLine>, endings: seq<string>, original: seq<string>, at: nat)
    requires EndingsKept(ts, endings, original) && AllTerminators(endings) && at < |ts| && ts[at].orig.None?
    ensures EndingsKept(RemoveAt(ts, at), RemoveEnding(endings, at), original)
    ensures AllTerminators(RemoveEnding(endings, at))
  {
    hide IsTerminator;
    var n := |ts|;
    RemoveKeepsEndings(ts, endings, at);
    if at == n - 1 && n >= 2 {
      var less := endings[..n - 1];
      assert RemoveAt(endings, at) == less;
      LastEndingOnly(RemoveAt(ts, at), less, endings[n - 1]);
      SameTransitive(KeptEndings(RemoveAt(ts, at), RemoveEnding(endings, at)), KeptEndings(RemoveAt(ts, at), less),
          original);
    }
  }

  lemma {:induction false} SetKeepsEndings(ts: seq<TLine>, endings: seq<string>, at: nat, line: string)
    requires |ts| == |endings| && at < |ts|
    ensures var ts' := ts[at := ts[at].(line := line)];
      KeptEndings(ts', endings) == KeptEndings(ts, endings) && Origs(ts') == Origs(ts)
  {
    var n := |ts| - 1;
    if at < n {
      SetKeepsEndings(ts[..n], endings[..n], at, line);
      assert ts[at := ts[at].(line := line)][..n] == ts[..n][at := ts[at].(line := line)];
    } else {
      assert ts[at := ts[at].(line := line)][..n] == ts[..n];
    }
  }

  // ---- The front ----

  lemma {:induction false} FrontInsert(ts: seq<TLine>, at: nat, t: TLine)
    requires FrontOk(ts) && at <= |ts| && NoBom(t.line) && t.orig.None?
    ensures FrontOk(InsertAt(ts, at, t))
  {
    if at == 0 {
      assert InsertAt(ts, at, t)[1..] == ts;
    } else {
      if ts[0].orig.None? {
        FrontInsert(ts[1..], at - 1, t);
      }
      assert InsertAt(ts, at, t)[1..] == InsertAt(ts[1..], at - 1, t);
    }
  }

  lemma {:induction false} FrontRemove(ts: seq<TLine>, at: nat)
    requires FrontOk(ts) && at < |ts| && ts[at].orig.None?
    ensures FrontOk(RemoveAt(ts, at))
  {
    if at == 0 {
      assert RemoveAt(ts, at) == ts[1..];
    } else {
      if ts[0].orig.None? {
        FrontRemove(ts[1..], at - 1);
      }
      assert ts[1..][..at - 1] == ts[..at][1..] && ts[1..][at..] == ts[at + 1..];
      assert RemoveAt(ts, at)[1..] == RemoveAt(ts[1..], at - 1);
    }
  }

  /** Both start with the same character. */
  predicate SameStart(line: string, orig: Option<string>) {
    orig.Some? && line != "" && orig.value != "" && line[0] == orig.value[0]
  }

  /** Text for a line: one's own without a byte order mark in front, or starting as the original does. */
  predicate Settable(line: string, orig: Option<string>) {
    orig == Some(line) || (Unbroken(line) && (NoBom(line) || SameStart(line, orig)))
  }

  lemma {:induction false} FrontSet(ts: seq<TLine>, at: nat, line: string)
    requires FrontOk(ts) && at < |ts|
    requires Settable(line, ts[at].orig) && (Origs(ts) != [] ==> NoBom(Origs(ts)[0]))
    ensures FrontOk(ts[at := ts[at].(line := line)])
  {
    var ts' := ts[at := ts[at].(line := line)];
    OrigsFront(ts);
    if at == 0 {
      assert ts'[1..] == ts[1..];
    } else {
      if ts[0].orig.None? {
        FrontSet(ts[1..], at - 1, line);
      }
      assert ts'[1..] == ts[1..][at - 1 := ts[at].(line := line)];
    }
  }

  lemma {:induction false} OrigsConcat(a: seq<TLine>, b: seq<TLine>)
    ensures Origs(a + b) == Origs(a) + Origs(b)
  {
    if b == [] {
      assert a + b == a;
    } else {
      OrigsConcat(a, b[..|b| - 1]);
      assert (a + b)[..|a + b| - 1] == a + b[..|b| - 1];
    }
  }

  lemma {:induction false} OrigsFront(ts: seq<TLine>)
    ensures ts != [] ==> Origs(ts) == (if ts[0].orig.Some? then [ts[0].orig.value] else []) + Origs(ts[1..])
  {
    if ts != [] {
      assert ts == ts[..1] + ts[1..];
      OrigsConcat(ts[..1], ts[1..]);
      assert ts[..1][..0] == [];
    }
  }

  // ---- The three edits ----

  lemma {:induction false} TrackInsert(d: Doc, ts: seq<TLine>, d0: Doc, at: nat, line: string)
    requires Tracks(d, ts, d0) && at <= |ts| && Unbroken(line) && NoBom(line)
    ensures Tracks(Insert(d, at, line), InsertAt(ts, at, Own(line)), d0)
  {
    hide KeptEndings, FrontOk, Origs, EndingsKept, AllTerminators, Clean, InsertEnding, Unbroken, NoBom;
    InsertEndingsOf(d, ts, d0, at, line);
    InsertKeepsEndings(ts, d.endings, at, Own(line), "");
    if !d0.bom {
      FrontInsert(ts, at, Own(line));
    }
    assert Lines(InsertAt(ts, at, Own(line))) == InsertAt(Lines(ts), at, line);
  }

  lemma {:induction false} InsertEndingsOf(d: Doc, ts: seq<TLine>, d0: Doc, at: nat, line: string)
    requires Tracks(d, ts, d0) && at <= |ts|
    ensures EndingsKept(InsertAt(ts, at, Own(line)), InsertEnding(d.endings, at), d0.endings)
    ensures AllTerminators(InsertEnding(d.endings, at))
  {
    hide KeptEndings, FrontOk, AllTerminators, InsertEnding, Unbroken;
    assert ts == [] ==> Origs(ts) == [];
    InsertEndings(ts, d.endings, d0.endings, at, Own(line));
  }

  lemma {:induction false} TrackRemove(d: Doc, ts: seq<TLine>, d0: Doc, at: nat)
    requires Tracks(d, ts, d0) && at < |ts| && ts[at].orig.None?
    ensures Tracks(Remove(d, at), RemoveAt(ts, at), d0)
  {
    hide KeptEndings, FrontOk, Origs, EndingsKept, AllTerminators, Clean, RemoveEnding, Unbroken, NoBom;
    RemoveEndings(ts, d.endings, d0.endings, at);
    RemoveKeepsEndings(ts, Lines(ts), at);
    if !d0.bom {
      FrontRemove(ts, at);
    }
    assert Lines(RemoveAt(ts, at)) == RemoveAt(Lines(ts), at);
  }

  /** Replacing the text of a line, by text of one's own or by the original. */
  lemma {:induction false} TrackSet(d: Doc, ts: seq<TLine>, d0: Doc, at: nat, line: string)
    requires Tracks(d, ts, d0) && at < |ts|
    requires Settable(line, ts[at].orig)
    ensures Tracks(d.(lines := d.lines[at := line]), ts[at := ts[at].(line := line)], d0)
  {
    hide KeptEndings, FrontOk, Origs, AllTerminators, Unbroken, NoBom;
    SetKeepsEndings(ts, d.endings, at, line);
    OrigsHold(ts, at);
    if ts[at].orig == Some(line) {
      var k :| 0 <= k < |Origs(ts)| && Origs(ts)[k] == line;
      assert Unbroken(d0.lines[k]);
    }
    if !d0.bom {
      FrontSet(ts, at, line);
    }
    assert Lines(ts[at := ts[at].(line := line)]) == Lines(ts)[at := line];
  }

  lemma {:induction false} OrigsHold(ts: seq<TLine>, at: nat)
    requires at < |ts|
    ensures ts[at].orig.Some? ==> exists k :: 0 <= k < |Origs(ts)| && Origs(ts)[k] == ts[at].orig.value
  {
    var n := |ts| - 1;
    if at < n {
      OrigsHold(ts[..n], at);
      if ts[at].orig.Some? {
        var k :| 0 <= k < |Origs(ts[..n])| && Origs(ts[..n])[k] == ts[at].orig.value;
        assert Origs(ts)[k] == ts[at].orig.value;
      }
    } else if ts[at].orig.Some? {
      assert Origs(ts)[|Origs(ts)| - 1] == ts[at].orig.value;
    }
  }

  // ---- Start and end ----

  lemma {:induction false} KeptOrigs(lines: seq<string>, endings: seq<string>)
    requires |lines| == |endings|
    ensures Origs(Kept(lines)) == lines && KeptEndings(Kept(lines), endings) == endings
  {
    if lines != [] {
      var n := |lines| - 1;
      KeptOrigs(lines[..n], endings[..n]);
      assert Kept(lines)[..n] == Kept(lines[..n]);
    }
  }

  lemma {:induction false} TrackStart(d: Doc)
    requires Clean(d)
    ensures Tracks(d, Kept(d.lines), d)
  {
    hide IsTerminator, Unbroken, Origs, KeptEndings;
    KeptOrigs(d.lines, d.endings);
    assert Lines(Kept(d.lines)) == d.lines;
  }

  /** When only original lines are left, as they were, the document is the original. */
  lemma {:induction false} TrackEnd(d: Doc, d0: Doc)
    requires Tracks(d, Kept(d0.lines), d0)
    ensures d == d0
  {
    hide IsTerminator, Unbroken, Origs, KeptEndings;
    assert Lines(Kept(d0.lines)) == d0.lines;
    KeptOrigs(d0.lines, d.endings);
  }

  /** A tracked document can be rendered and read back. */
  lemma {:induction false} TrackedIsClean(d: Doc, ts: seq<TLine>, d0: Doc)
    requires Tracks(d, ts, d0)
    ensures Clean(d)
  {
    hide IsTerminator, Unbroken, Origs, KeptEndings, EndingsKept;
    assert forall i :: 0 <= i < |ts| ==> d.lines[i] == ts[i].line;
  }
}
