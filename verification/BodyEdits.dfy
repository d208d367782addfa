/** Proof tool: finding, setting, inserting and removing one assignment among the lines of a region. */
module BodyEdits {
  import opened Common
  import opened ConfigLines
  import opened Document
  import opened Tracking
  import opened Regions
  import opened ConfigEdit

  /** The one line of a body that assigns a key. */
  predicate Spot(b: seq<TLine>, key: string, i: nat) {
    && i < |b| && Assigned(b[i].line, key).Some?
    && forall j :: 0 <= j < |b| && j != i ==> Assigned(b[j].line, key).None?
  }

  predicate Nowhere(b: seq<TLine>, key: string) {
    forall j :: 0 <= j < |b| ==> Assigned(b[j].line, key).None?
  }

  /** The key's place in a body, absent or unique. */
  predicate Place(b: seq<TLine>, key: string, at: Option<nat>) {
    match at
    case None => Nowhere(b, key)
    case Some(i) => Spot(b, key, i)
  }

  function KeyHits(lines: seq<string>, key: string): seq<bool> {
    seq(|lines|, i requires 0 <= i < |lines| => Assigned(lines[i], key).Some?)
  }

  lemma {:induction false} MatchAt(b: seq<TLine>, key: string, i: nat, offset: nat)
    requires Spot(b, key, i)
    ensures OnlyMatch(Lines(b), key, offset) ==
      Ok(Some(Assignment(b[i].line, Assigned(b[i].line, key).value, offset + i)))
  {
    hide Assigned;
    WhereOnly(KeyHits(Lines(b), key), i);
    assert Matches(Lines(b), key) == Where(KeyHits(Lines(b), key));
  }

  lemma {:induction false} MatchNone(b: seq<TLine>, key: string, offset: nat)
    requires Nowhere(b, key)
    ensures OnlyMatch(Lines(b), key, offset) == Ok(None)
  {
    hide Assigned;
    WhereNone(KeyHits(Lines(b), key));
    assert Matches(Lines(b), key) == Where(KeyHits(Lines(b), key));
  }

  lemma {:induction false} MatchCases(b: seq<TLine>, key: string, offset: nat) returns (at: Option<nat>)
    requires OnlyMatch(Lines(b), key, offset).Ok?
    ensures Place(b, key, at)
    ensures at.None? ==> OnlyMatch(Lines(b), key, offset) == Ok(None)
    ensures at.Some? ==>
      OnlyMatch(Lines(b), key, offset)
          == Ok(Some(Assignment(b[at.value].line, Assigned(b[at.value].line, key).value, offset + at.value)))
  {
    hide Assigned;
    var hits := KeyHits(Lines(b), key);
    assert Matches(Lines(b), key) == Where(hits);
    if |Where(hits)| == 0 {
      WhereNone(hits);
      at := None;
      forall j | 0 <= j < |b|
        ensures Assigned(b[j].line, key).None?
      {
        assert !hits[j];
      }
    } else {
      WhereOne(hits);
      at := Some(Where(hits)[0]);
      forall j | 0 <= j < |b| && j != at.value
        ensures Assigned(b[j].line, key).None?
      {
        assert !hits[j];
      }
    }
  }

  // ---- How edits move a key's place ----

  lemma {:induction false} SetOwn(b: seq<TLine>, key: string, i: nat, t: TLine)
    requires Spot(b, key, i) && Assigned(t.line, key).Some?
    ensures Spot(b[i := t], key, i)
  {
    hide Assigned;
  }

  lemma {:induction false} SetOther(b: seq<TLine>, key: string, at: Option<nat>, j: nat, t: TLine)
    requires Place(b, key, at) && j < |b| && at != Some(j) && Assigned(t.line, key).None?
    ensures Place(b[j := t], key, at)
  {
    hide Assigned;
  }

  function Shifted(at: Option<nat>, j: nat): Option<nat> {
    if at.Some? && j <= at.value then Some(at.value + 1) else at
  }

  lemma {:induction false} InsertOther(b: seq<TLine>, key: string, at: Option<nat>, j: nat, t: TLine)
    requires Place(b, key, at) && j <= |b| && Assigned(t.line, key).None?
    ensures Place(InsertAt(b, j, t), key, Shifted(at, j))
  {
    hide Assigned;
    var b' := InsertAt(b, j, t);
    assert forall k :: 0 <= k < |b'| && k != j ==> b'[k] == b[if k < j then k else k - 1];
  }

  lemma {:induction false} InsertNew(b: seq<TLine>, key: string, j: nat, t: TLine)
    requires Nowhere(b, key) && j <= |b| && Assigned(t.line, key).Some?
    ensures Spot(InsertAt(b, j, t), key, j)
  {
    hide Assigned;
    var b' := InsertAt(b, j, t);
    assert forall k :: 0 <= k < |b'| && k != j ==> b'[k] == b[if k < j then k else k - 1];
  }

  lemma {:induction false} AppendOther(b: seq<TLine>, key: string, at: Option<nat>, more: seq<TLine>)
    requires Place(b, key, at) && Nowhere(more, key)
    ensures Place(b + more, key, at)
  {
    hide Assigned;
  }

  lemma {:induction false} NoHeadersInsert(b: seq<TLine>, j: nat, t: TLine)
    requires NoHeaders(b) && j <= |b| && !IsHeader(t.line)
    ensures NoHeaders(InsertAt(b, j, t))
  {
    hide IsHeader;
  }

  // ---- Edits of the document, tracked ----

  lemma {:induction false} KeepWellFormed(rs: seq<Region>, k: nat, b: seq<TLine>)
    requires WellFormed(rs) && k < |rs| && NoHeaders(b)
    ensures WellFormed(WithBody(rs, k, b))
  {
    hide IsHeader;
    var rs' := WithBody(rs, k, b);
    assert k > 0 ==> Headed(rs[k]);
  }

  /** The state of an edit in progress: the document, its regions, the original. */
  ghost predicate At(d: Doc, rs: seq<Region>, d0: Doc) {
    WellFormed(rs) && Tracks(d, Flat(rs), d0)
  }

  lemma {:induction false} AtLines(d: Doc, rs: seq<Region>, d0: Doc)
    requires At(d, rs, d0)
    ensures Valid(d) && d.lines == Lines(Flat(rs)) && |d.lines| == |Flat(rs)|
  {
  }

  function Changed(t: TLine, line: string): TLine {
    t.(line := line)
  }

  predicate Writable(line: string) {
    Unbroken(line) && NoBom(line) && !IsHeader(line)
  }

  lemma {:induction false} DoSet(d: Doc, rs: seq<Region>, d0: Doc, k: nat, j: nat, line: string)
    requires At(d, rs, d0) && k < |rs| && j < |rs[k].body|
    requires Settable(line, rs[k].body[j].orig) && !IsHeader(line)
    ensures BodyStart(rs, k) + j < |d.lines| && Valid(d)
    ensures At(SetLine(d, BodyStart(rs, k) + j, line), WithBody(rs, k, rs[k].body[j := Changed(rs[k].body[j], line)]),
      d0)
  {
    hide IsHeader, Flat, Unbroken, NoBom, Tracks;
    AtLines(d, rs, d0);
    FlatSet(rs, k, j, Changed(rs[k].body[j], line));
    TrackSet(d, Flat(rs), d0, BodyStart(rs, k) + j, line);
    assert NoHeaders(rs[k].body);
    KeepWellFormed(rs, k, rs[k].body[j := Changed(rs[k].body[j], line)]);
  }

  lemma {:induction false} DoInsert(d: Doc, rs: seq<Region>, d0: Doc, k: nat, j: nat, line: string)
    requires At(d, rs, d0) && k < |rs| && j <= |rs[k].body| && Writable(line)
    ensures BodyStart(rs, k) + j <= |d.lines| && Valid(d)
    ensures At(Insert(d, BodyStart(rs, k) + j, line), WithBody(rs, k, InsertAt(rs[k].body, j, Own(line))), d0)
  {
    hide IsHeader, Flat, Unbroken, NoBom, Tracks, Insert;
    AtLines(d, rs, d0);
    FlatInsert(rs, k, j, Own(line));
    TrackInsert(d, Flat(rs), d0, BodyStart(rs, k) + j, line);
    assert NoHeaders(rs[k].body);
    NoHeadersInsert(rs[k].body, j, Own(line));
    KeepWellFormed(rs, k, InsertAt(rs[k].body, j, Own(line)));
  }

  lemma {:induction false} DoRemove(d: Doc, rs: seq<Region>, d0: Doc, k: nat, j: nat)
    requires At(d, rs, d0) && k < |rs| && j < |rs[k].body| && rs[k].body[j].orig.None?
    ensures BodyStart(rs, k) + j < |d.lines| && Valid(d)
    ensures At(Remove(d, BodyStart(rs, k) + j), WithBody(rs, k, RemoveAt(rs[k].body, j)), d0)
  {
    hide IsHeader, Flat, Unbroken, NoBom, Tracks, Remove;
    AtLines(d, rs, d0);
    FlatRemove(rs, k, j);
    TrackRemove(d, Flat(rs), d0, BodyStart(rs, k) + j);
    assert NoHeaders(rs[k].body);
    NoHeadersRemove(rs[k].body, j);
    KeepWellFormed(rs, k, RemoveAt(rs[k].body, j));
  }

  lemma {:induction false} NoHeadersRemove(b: seq<TLine>, j: nat)
    requires NoHeaders(b) && j < |b|
    ensures NoHeaders(RemoveAt(b, j))
  {
    hide IsHeader;
  }

  // ---- Setting a key in a body, and taking it back ----

  /** Where the key's line is after the edit. */
  function SpotAfter(b: seq<TLine>, at: Option<nat>, j: nat): nat {
    if at.Some? then at.value else j
  }

  /** Replace the key's line, or insert one at `j`. */
  function PutIn(b: seq<TLine>, at: Option<nat>, j: nat, line: string): seq<TLine>
    requires at.Some? ==> at.value < |b|
    requires at.None? ==> j <= |b|
  {
    if at.Some? then b[at.value := Changed(b[at.value], line)] else InsertAt(b, j, Own(line))
  }

  /** Put the original line back, or remove the inserted one. */
  function TakeBack(b: seq<TLine>, at: Option<nat>, j: nat, line: string): seq<TLine>
    requires SpotAfter(b, at, j) < |b|
  {
    if at.Some? then b[at.value := Changed(b[at.value], line)] else RemoveAt(b, j)
  }

  lemma {:induction false} PutInPlaces(b: seq<TLine>, key: string, at: Option<nat>, j: nat, line: string)
    requires Place(b, key, at) && (at.None? ==> j <= |b|) && Assigned(line, key).Some?
    ensures Spot(PutIn(b, at, j, line), key, SpotAfter(b, at, j))
  {
    hide Assigned;
    if at.Some? {
      SetOwn(b, key, at.value, Changed(b[at.value], line));
    } else {
      InsertNew(b, key, j, Own(line));
    }
  }

  /** Another key's place after the edit. */
  lemma {:induction false} PutInOther(b: seq<TLine>, key: string, at: Option<nat>, j: nat, line: string, other: string,
          otherAt: Option<nat>)
    requires Place(b, key, at) && (at.None? ==> j <= |b|) && Place(b, other, otherAt)
    requires Assigned(line, other).None? && (at.Some? ==> at != otherAt)
    ensures Place(PutIn(b, at, j, line), other, if at.Some? then otherAt else Shifted(otherAt, j))
  {
    hide Assigned;
    if at.Some? {
      SetOther(b, other, otherAt, at.value, Changed(b[at.value], line));
    } else {
      InsertOther(b, other, otherAt, j, Own(line));
    }
  }

  /** Taking back what was put in leaves the body, and whatever was appended meanwhile. */
  lemma {:induction false} TakeBackUndoes(b: seq<TLine>, at: Option<nat>, j: nat, line: string, more: seq<TLine>)
    requires at.Some? ==> at.value < |b|
    requires at.None? ==> j <= |b|
    ensures SpotAfter(b, at, j) < |PutIn(b, at, j, line)|
    ensures TakeBack(PutIn(b, at, j, line) + more, at, j, if at.Some? then b[at.value].line else "") == b + more
  {
    if at.Some? {
      assert Changed(Changed(b[at.value], line), b[at.value].line) == b[at.value];
    } else {
      assert RemoveAt(InsertAt(b, j, Own(line)) + more, j) == b + more;
    }
  }

  /** Put a line in a body by key, on the document. */
  lemma {:induction false} DoPutIn(d: Doc, rs: seq<Region>, d0: Doc, k: nat, at: Option<nat>, j: nat, line: string)
    requires At(d, rs, d0) && k < |rs| && (at.Some? ==> at.value < |rs[k].body|) && (at.None? ==> j <= |rs[k].body|)
    requires Writable(line) || (at.Some? && Settable(line, rs[k].body[at.value].orig) && !IsHeader(line))
    ensures Valid(d) && BodyStart(rs, k) + SpotAfter(rs[k].body, at, j) <= |d.lines|
    ensures at.Some? ==> BodyStart(rs, k) + at.value < |d.lines|
    ensures var d' := if at.Some? then SetLine(d, BodyStart(rs, k) + at.value, line)
      else Insert(d, BodyStart(rs, k) + j, line);
      At(d', WithBody(rs, k, PutIn(rs[k].body, at, j, line)), d0)
  {
    hide At, WithBody, BodyStart, Unbroken, NoBom, IsHeader;
    if at.Some? {
      DoSet(d, rs, d0, k, at.value, line);
    } else {
      DoInsert(d, rs, d0, k, j, line);
    }
  }

  /** Take it back. */
  lemma {:induction false} DoTakeBack(d: Doc, rs: seq<Region>, d0: Doc, k: nat, at: Option<nat>, j: nat,
          previous: Option<Assignment>)
    requires At(d, rs, d0) && k < |rs| && SpotAfter(rs[k].body, at, j) < |rs[k].body| && at.Some? == previous.Some?
    requires at.Some? ==> rs[k].body[at.value].orig == Some(previous.value.line) && !IsHeader(previous.value.line)
    requires at.None? ==> rs[k].body[j].orig.None?
    ensures Valid(d) && BodyStart(rs, k) + SpotAfter(rs[k].body, at, j) < |d.lines|
    ensures At(PutBack(d, BodyStart(rs, k) + SpotAfter(rs[k].body, at, j), previous),
      WithBody(rs, k, TakeBack(rs[k].body, at, j, if at.Some? then previous.value.line else "")), d0)
  {
    hide At, WithBody, BodyStart, IsHeader;
    if at.Some? {
      DoSet(d, rs, d0, k, at.value, previous.value.line);
    } else {
      DoRemove(d, rs, d0, k, j);
    }
  }

  lemma {:induction false} BodyTwice(rs: seq<Region>, k: nat, a: seq<TLine>, b: seq<TLine>)
    requires k < |rs|
    ensures WithBody(WithBody(rs, k, a), k, b) == WithBody(rs, k, b)
    ensures WithBody(rs, k, a)[k].body == a && |WithBody(rs, k, a)| == |rs|
    ensures WithBody(rs, k, rs[k].body) == rs
  {
  }
}
