/**
 * Proof tool: a config file as regions, the lines before the first table and then one region a table.
 * An edit inside one region is an edit of the file, and every search of the file is a search of a region.
 */
module Regions {
  import opened Common
  import opened Toml
  import opened ConfigLines
  import opened Document
  import opened Tracking

  /** A table header, absent for the first region, and the lines under it. */
  datatype Region = Region(head: seq<TLine>, body: seq<TLine>)

  function Flat(rs: seq<Region>): seq<TLine> {
    if rs == [] then [] else Flat(rs[..|rs| - 1]) + (rs[|rs| - 1].head + rs[|rs| - 1].body)
  }

  predicate NoHeaders(body: seq<TLine>) {
    forall i :: 0 <= i < |body| ==> !IsHeader(body[i].line)
  }

  predicate Headed(r: Region) {
    |r.head| == 1 && IsHeader(r.head[0].line)
  }

  predicate WellFormed(rs: seq<Region>) {
    && rs != [] && rs[0].head == []
    && (forall k :: 0 <= k < |rs| ==> NoHeaders(rs[k].body))
    && (forall k :: 1 <= k < |rs| ==> Headed(rs[k]))
  }

  /** Where a region starts in the file. */
  function Start(rs: seq<Region>, k: nat): nat
    requires k <= |rs|
  {
    |Flat(rs[..k])|
  }

  function BodyStart(rs: seq<Region>, k: nat): nat
    requires k < |rs|
  {
    Start(rs, k) + |rs[k].head|
  }

  function WithBody(rs: seq<Region>, k: nat, body: seq<TLine>): seq<Region>
    requires k < |rs|
  {
    rs[k := rs[k].(body := body)]
  }

  // ---- Regions and the flat file ----

  lemma {:induction false} FlatConcat(a: seq<Region>, b: seq<Region>)
    ensures Flat(a + b) == Flat(a) + Flat(b)
  {
    if b == [] {
      assert a + b == a;
    } else {
      var init, r := b[..|b| - 1], b[|b| - 1];
      FlatConcat(a, init);
      FlatSnoc(init, r);
      FlatSnoc(a + init, r);
      hide Flat;
      assert init + [r] == b && (a + init) + [r] == a + b;
    }
  }

  lemma {:induction false} FlatSnoc(rs: seq<Region>, r: Region)
    ensures Flat(rs + [r]) == Flat(rs) + (r.head + r.body)
  {
    assert (rs + [r])[..|rs|] == rs;
  }

  /** The file around one region. */
  lemma {:induction false} FlatAround(rs: seq<Region>, k: nat)
    requires k < |rs|
    ensures Flat(rs) == Flat(rs[..k]) + (rs[k].head + rs[k].body) + Flat(rs[k + 1..])
    ensures Start(rs, k + 1) == BodyStart(rs, k) + |rs[k].body| <= |Flat(rs)|
  {
    assert rs[..k + 1] + rs[k + 1..] == rs;
    FlatConcat(rs[..k + 1], rs[k + 1..]);
    assert rs[..k + 1][..k] == rs[..k];
  }

  lemma {:induction false} FlatWithBody(rs: seq<Region>, k: nat, body: seq<TLine>)
    requires k < |rs|
    ensures Flat(WithBody(rs, k, body)) == Flat(rs[..k]) + (rs[k].head + body) + Flat(rs[k + 1..])
  {
    var rs' := WithBody(rs, k, body);
    FlatAround(rs', k);
    assert rs'[..k] == rs[..k] && rs'[k + 1..] == rs[k + 1..];
  }

  lemma {:induction false} SliceOf<T>(p: seq<T>, h: seq<T>, b: seq<T>, q: seq<T>)
    ensures var s := p + (h + b) + q;
      s[|p| + |h|..|p| + |h| + |b|] == b && s[|p|..|p| + |h|] == h
  {
  }

  lemma {:induction false} InsertInside<T>(p: seq<T>, h: seq<T>, b: seq<T>, q: seq<T>, j: nat, x: T)
    requires j <= |b|
    ensures InsertAt(p + (h + b) + q, |p| + |h| + j, x) == p + (h + InsertAt(b, j, x)) + q
  {
  }

  lemma {:induction false} RemoveInside<T>(p: seq<T>, h: seq<T>, b: seq<T>, q: seq<T>, j: nat)
    requires j < |b|
    ensures RemoveAt(p + (h + b) + q, |p| + |h| + j) == p + (h + RemoveAt(b, j)) + q
  {
  }

  lemma {:induction false} SetInside<T>(p: seq<T>, h: seq<T>, b: seq<T>, q: seq<T>, j: nat, x: T)
    requires j < |b|
    ensures (p + (h + b) + q)[|p| + |h| + j] == b[j]
    ensures (p + (h + b) + q)[|p| + |h| + j := x] == p + (h + b[j := x]) + q
  {
  }

  lemma {:induction false} FlatInsert(rs: seq<Region>, k: nat, j: nat, x: TLine)
    requires k < |rs| && j <= |rs[k].body|
    ensures BodyStart(rs, k) + j <= |Flat(rs)|
    ensures Flat(WithBody(rs, k, InsertAt(rs[k].body, j, x))) == InsertAt(Flat(rs), BodyStart(rs, k) + j, x)
  {
    hide Flat, InsertAt, RemoveAt;
    FlatAround(rs, k);
    FlatWithBody(rs, k, InsertAt(rs[k].body, j, x));
    InsertInside(Flat(rs[..k]), rs[k].head, rs[k].body, Flat(rs[k + 1..]), j, x);
  }

  lemma {:induction false} FlatRemove(rs: seq<Region>, k: nat, j: nat)
    requires k < |rs| && j < |rs[k].body|
    ensures BodyStart(rs, k) + j < |Flat(rs)| && Flat(rs)[BodyStart(rs, k) + j] == rs[k].body[j]
    ensures Flat(WithBody(rs, k, RemoveAt(rs[k].body, j))) == RemoveAt(Flat(rs), BodyStart(rs, k) + j)
  {
    hide Flat, InsertAt, RemoveAt;
    FlatAround(rs, k);
    FlatWithBody(rs, k, RemoveAt(rs[k].body, j));
    RemoveInside(Flat(rs[..k]), rs[k].head, rs[k].body, Flat(rs[k + 1..]), j);
    SetInside(Flat(rs[..k]), rs[k].head, rs[k].body, Flat(rs[k + 1..]), j, rs[k].body[j]);
  }

  lemma {:induction false} FlatSet(rs: seq<Region>, k: nat, j: nat, x: TLine)
    requires k < |rs| && j < |rs[k].body|
    ensures BodyStart(rs, k) + j < |Flat(rs)| && Flat(rs)[BodyStart(rs, k) + j] == rs[k].body[j]
    ensures Flat(WithBody(rs, k, rs[k].body[j := x])) == Flat(rs)[BodyStart(rs, k) + j := x]
  {
    hide Flat, InsertAt, RemoveAt;
    FlatAround(rs, k);
    FlatWithBody(rs, k, rs[k].body[j := x]);
    SetInside(Flat(rs[..k]), rs[k].head, rs[k].body, Flat(rs[k + 1..]), j, x);
  }

  /** Which region an index of the file falls in. */
  lemma {:induction false} Locate(rs: seq<Region>, i: nat) returns (k: nat)
    requires i < |Flat(rs)|
    ensures k < |rs| && Start(rs, k) <= i < Start(rs, k) + |rs[k].head| + |rs[k].body|
    ensures Flat(rs)[i] == (rs[k].head + rs[k].body)[i - Start(rs, k)]
  {
    var n := |rs| - 1;
    if i < Start(rs, n) {
      k := Locate(rs[..n], i);
      assert rs[..n][..k] == rs[..k];
    } else {
      k := n;
    }
  }

  lemma {:induction false} NotInBody(r: Region, o: nat)
    requires NoHeaders(r.body) && o < |r.head| + |r.body| && IsHeader((r.head + r.body)[o].line)
    ensures o < |r.head|
  {
  }

  /** A header line of the file is some region's head. */
  lemma {:induction false} HeaderIsHead(rs: seq<Region>, i: nat) returns (k: nat)
    requires WellFormed(rs) && i < |Flat(rs)| && IsHeader(Flat(rs)[i].line)
    ensures 1 <= k < |rs| && i == Start(rs, k) && Flat(rs)[i] == rs[k].head[0]
  {
    hide IsHeader;
    k := Locate(rs, i);
    NotInBody(rs[k], i - Start(rs, k));
    assert k == 0 || Headed(rs[k]);
  }

  lemma {:induction false} HeadIsThere(rs: seq<Region>, k: nat)
    requires WellFormed(rs) && 1 <= k < |rs|
    ensures Start(rs, k) < |Flat(rs)| && Flat(rs)[Start(rs, k)] == rs[k].head[0]
  {
    hide IsHeader;
    assert Headed(rs[k]);
    FlatAround(rs, k);
    SliceOf(Flat(rs[..k]), rs[k].head, rs[k].body, Flat(rs[k + 1..]));
    assert Flat(rs)[Start(rs, k)..Start(rs, k) + 1][0] == rs[k].head[0];
  }

  lemma {:induction false} BodyIsThere(rs: seq<Region>, k: nat)
    requires k < |rs|
    ensures BodyStart(rs, k) <= Start(rs, k + 1) <= |Flat(rs)|
    ensures Flat(rs)[BodyStart(rs, k)..Start(rs, k + 1)] == rs[k].body
    ensures Lines(Flat(rs))[BodyStart(rs, k)..Start(rs, k + 1)] == Lines(rs[k].body)
  {
    FlatAround(rs, k);
    SliceOf(Flat(rs[..k]), rs[k].head, rs[k].body, Flat(rs[k + 1..]));
    SliceLines(Flat(rs), BodyStart(rs, k), Start(rs, k + 1));
  }

  lemma {:induction false} SliceLines(ts: seq<TLine>, a: nat, b: nat)
    requires a <= b <= |ts|
    ensures Lines(ts)[a..b] == Lines(ts[a..b])
  {
  }

  // ---- Searching the file ----

  lemma {:induction false} FirstTableOf(lines: seq<string>, n: nat)
    requires n <= |lines| && (forall i :: 0 <= i < n ==> !IsHeader(lines[i]))
    requires n < |lines| ==> IsHeader(lines[n])
    ensures FirstTable(lines) == n
  {
    hide IsHeader;
    if n > 0 {
      FirstTableOf(lines[1..], n - 1);
    }
  }

  /** A region's body ends at the next header or at the end. */
  lemma {:induction false} BodyEnds(rs: seq<Region>, k: nat)
    requires WellFormed(rs) && k < |rs|
    ensures BodyStart(rs, k) <= |Flat(rs)|
    ensures FirstTable(Lines(Flat(rs))[BodyStart(rs, k)..]) == |rs[k].body|
  {
    hide IsHeader;
    BodyIsThere(rs, k);
    FlatAround(rs, k);
    assert NoHeaders(rs[k].body);
    var from, n := BodyStart(rs, k), |rs[k].body|;
    var rest := Lines(Flat(rs))[from..];
    forall i | 0 <= i < n
      ensures !IsHeader(rest[i])
    {
      assert rest[i] == Lines(Flat(rs))[from..from + n][i] == rs[k].body[i].line;
    }
    if k + 1 < |rs| {
      HeadIsThere(rs, k + 1);
      assert Headed(rs[k + 1]);
    } else {
      assert rs[..k + 1] == rs;
    }
    FirstTableOf(rest, n);
  }

  lemma {:induction false} TopIsFirst(rs: seq<Region>)
    requires WellFormed(rs)
    ensures var ls := Lines(Flat(rs)); FirstTable(ls) == |rs[0].body| && ls[..FirstTable(ls)] == Lines(rs[0].body)
  {
    hide IsHeader, FirstTable;
    BodyEnds(rs, 0);
    BodyIsThere(rs, 0);
    assert Lines(Flat(rs))[0..] == Lines(Flat(rs));
  }

  predicate IsName(name: string) {
    name != "" && ']' !in name
  }

  lemma {:induction false} IndexOfIs(s: string, c: char, n: nat)
    requires n < |s| && s[n] == c && forall i :: 0 <= i < n ==> s[i] != c
    ensures IndexOf(s, c) == n
  {
    IndexOfMeans(s, c);
  }

  lemma {:induction false} TableIndex(t: string, name: string)
    requires IsName(name) && Header(name) <= t
    ensures IndexOf(t, ']') == |name| + 1 && t[0] == '['
    ensures t[1..|name| + 1] == name && t[|name| + 2..] == t[|Header(name)|..]
  {
    assert forall i :: 0 <= i < |name| ==> name[i] in name;
    assert forall i :: 0 <= i < |Header(name)| ==> t[i] == Header(name)[i];
    IndexOfIs(t, ']', |name| + 1);
  }

  lemma {:induction false} NotBracket(rest: string)
    requires CommentTail(rest)
    ensures rest == "" || rest[0] != ']'
  {
  }

  lemma {:induction false} TableIsHeader(line: string, name: string)
    requires IsTable(line, name) && IsName(name)
    ensures IsHeader(line)
  {
    hide TrimStart, CommentTail;
    var t := TrimStart(line);
    TableIndex(t, name);
    NotBracket(t[|Header(name)|..]);
  }

  lemma {:induction false} OneTable(line: string, a: string, b: string)
    requires IsTable(line, a) && IsTable(line, b) && IsName(a) && IsName(b)
    ensures a == b
  {
    hide TrimStart, CommentTail;
    TableIndex(TrimStart(line), a);
    TableIndex(TrimStart(line), b);
  }

  /** Region `k` is the table of this name; `Absent` says there is none. */
  predicate Named(rs: seq<Region>, name: string, k: nat) {
    1 <= k < |rs| && |rs[k].head| == 1 && IsTable(rs[k].head[0].line, name)
  }

  ghost predicate Only(rs: seq<Region>, name: string, k: nat) {
    Named(rs, name, k) && forall j :: j != k ==> !Named(rs, name, j)
  }

  ghost predicate Absent(rs: seq<Region>, name: string) {
    forall j :: !Named(rs, name, j)
  }

  function Hits(lines: seq<string>, name: string): seq<bool> {
    seq(|lines|, i requires 0 <= i < |lines| => IsTable(lines[i], name))
  }

  /** A line that heads a table of this name is such a region's head. */
  lemma {:induction false} HitIsNamed(rs: seq<Region>, name: string, i: nat) returns (k: nat)
    requires WellFormed(rs) && IsName(name) && i < |Flat(rs)| && IsTable(Flat(rs)[i].line, name)
    ensures Named(rs, name, k) && i == Start(rs, k)
  {
    hide IsHeader, IsTable;
    TableIsHeader(Flat(rs)[i].line, name);
    k := HeaderIsHead(rs, i);
    assert Headed(rs[k]);
  }

  lemma {:induction false} TableIs(rs: seq<Region>, name: string, k: nat)
    requires WellFormed(rs) && IsName(name) && Only(rs, name, k)
    ensures var ls := Lines(Flat(rs));
      && FindTable(ls, name) == Ok(Some(Range(Start(rs, k), Start(rs, k + 1))))
      && Start(rs, k) + 1 == BodyStart(rs, k) <= Start(rs, k + 1) <= |ls|
      && ls[Start(rs, k) + 1..Start(rs, k + 1)] == Lines(rs[k].body)
  {
    hide IsHeader, IsTable, FirstTable, Flat;
    var ls := Lines(Flat(rs));
    HeadIsThere(rs, k);
    BodyEnds(rs, k);
    BodyIsThere(rs, k);
    FlatAround(rs, k);
    forall i | 0 <= i < |ls| && i != Start(rs, k)
      ensures !Hits(ls, name)[i]
    {
      if IsTable(ls[i], name) {
        var j := HitIsNamed(rs, name, i);
      }
    }
    WhereOnly(Hits(ls, name), Start(rs, k));
    assert Headers(ls, name) == Where(Hits(ls, name));
  }

  lemma {:induction false} TableIsNot(rs: seq<Region>, name: string)
    requires WellFormed(rs) && IsName(name) && Absent(rs, name)
    ensures FindTable(Lines(Flat(rs)), name) == Ok(None)
  {
    hide IsHeader, IsTable, FirstTable, Flat;
    var ls := Lines(Flat(rs));
    forall i | 0 <= i < |ls|
      ensures !Hits(ls, name)[i]
    {
      if IsTable(ls[i], name) {
        var j := HitIsNamed(rs, name, i);
      }
    }
    WhereNone(Hits(ls, name));
    assert Headers(ls, name) == Where(Hits(ls, name));
  }

  lemma {:induction false} NamedHits(rs: seq<Region>, name: string, k: nat)
    requires WellFormed(rs) && Named(rs, name, k)
    ensures Start(rs, k) < |Lines(Flat(rs))| && Hits(Lines(Flat(rs)), name)[Start(rs, k)]
  {
    hide IsHeader, IsTable, Flat;
    HeadIsThere(rs, k);
  }

  /** When the search succeeds, the file has the table once or not at all. */
  lemma {:induction false} TableCases(rs: seq<Region>, name: string) returns (k: Option<nat>)
    requires WellFormed(rs) && IsName(name) && FindTable(Lines(Flat(rs)), name).Ok?
    ensures if k.Some? then Only(rs, name, k.value) else Absent(rs, name)
  {
    hide IsHeader, IsTable, FirstTable, Flat;
    var ls := Lines(Flat(rs));
    var hits := Hits(ls, name);
    assert Headers(ls, name) == Where(hits);
    if |Where(hits)| == 0 {
      WhereNone(hits);
      k := None;
      forall j
        ensures !Named(rs, name, j)
      {
        if Named(rs, name, j) {
          NamedHits(rs, name, j);
        }
      }
    } else {
      WhereOne(hits);
      var i := Where(hits)[0];
      var j := HitIsNamed(rs, name, i);
      k := Some(j);
      forall m | Named(rs, name, m)
        ensures m == j
      {
        NamedHits(rs, name, m);
        StartsDiffer(rs, j, m);
      }
    }
  }

  lemma {:induction false} StartsGrow(rs: seq<Region>, a: nat, b: nat)
    requires WellFormed(rs) && 1 <= a < b < |rs|
    ensures Start(rs, a) < Start(rs, b)
  {
    hide IsHeader, Flat;
    FlatAround(rs, b - 1);
    assert Headed(rs[b - 1]);
    if a < b - 1 {
      StartsGrow(rs, a, b - 1);
    }
  }

  lemma {:induction false} StartsDiffer(rs: seq<Region>, a: nat, b: nat)
    requires WellFormed(rs) && 1 <= a < |rs| && 1 <= b < |rs| && Start(rs, a) == Start(rs, b)
    ensures a == b
  {
    if a < b {
      StartsGrow(rs, a, b);
    } else if b < a {
      StartsGrow(rs, b, a);
    }
  }

  // ---- Every file has regions ----

  function Tree(ts: seq<TLine>): (rs: seq<Region>)
    ensures rs != []
  {
    if ts == [] then [Region([], [])]
    else
      var n := |ts| - 1;
      var rs := Tree(ts[..n]);
      if IsHeader(ts[n].line) then rs + [Region([ts[n]], [])]
      else WithBody(rs, |rs| - 1, rs[|rs| - 1].body + [ts[n]])
  }

  lemma {:induction false} GrowRegions(rs: seq<Region>, t: TLine)
    requires WellFormed(rs) && IsHeader(t.line)
    ensures WellFormed(rs + [Region([t], [])]) && Flat(rs + [Region([t], [])]) == Flat(rs) + [t]
  {
    hide IsHeader;
    assert Headed(Region([t], []));
    assert (rs + [Region([t], [])])[..|rs|] == rs;
    assert [t] + [] == [t];
  }

  lemma {:induction false} GrowBody(rs: seq<Region>, t: TLine)
    requires WellFormed(rs) && !IsHeader(t.line)
    ensures var rs' := WithBody(rs, |rs| - 1, rs[|rs| - 1].body + [t]);
      WellFormed(rs') && Flat(rs') == Flat(rs) + [t]
  {
    hide IsHeader, Flat;
    var m := |rs| - 1;
    var rs' := WithBody(rs, m, rs[m].body + [t]);
    assert NoHeaders(rs[m].body);
    assert NoHeaders(rs[m].body + [t]);
    assert m > 0 ==> Headed(rs[m]);
    FlatAround(rs, m);
    FlatWithBody(rs, m, rs[m].body + [t]);
    NothingAfter(rs);
    GrowInside(Flat(rs[..m]), rs[m].head, rs[m].body, t);
  }

  lemma {:induction false} NothingAfter(rs: seq<Region>)
    requires rs != []
    ensures Flat(rs[|rs|..]) == []
  {
  }

  lemma {:induction false} GrowInside<T>(p: seq<T>, h: seq<T>, b: seq<T>, x: T)
    ensures p + (h + (b + [x])) + [] == p + (h + b) + [] + [x]
  {
  }

  lemma {:induction false} TreeIsWellFormed(ts: seq<TLine>)
    ensures WellFormed(Tree(ts)) && Flat(Tree(ts)) == ts
  {
    if ts == [] {
      assert [Region([], [])][..0] == [];
    } else {
      hide IsHeader, Flat, WellFormed;
      var n := |ts| - 1;
      TreeIsWellFormed(ts[..n]);
      assert ts[..n] + [ts[n]] == ts;
      if IsHeader(ts[n].line) {
        GrowRegions(Tree(ts[..n]), ts[n]);
      } else {
        GrowBody(Tree(ts[..n]), ts[n]);
      }
    }
  }
}
