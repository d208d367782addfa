/** Removing a table of one's own that has become empty, with the empty line before it. */
module TableRemoval {
  import opened Common
  import opened ConfigLines
  import opened Document
  import opened Tracking
  import opened Regions
  import opened BodyEdits
  import opened ConfigEdit
  import opened FeatureRegions

  /** Without its header, a region's lines fall to the one before. */
  function Merge(rs: seq<Region>, k: nat): seq<Region>
    requires 1 <= k < |rs|
  {
    rs[..k - 1] + [Region(rs[k - 1].head, rs[k - 1].body + rs[k].body)] + rs[k + 1..]
  }

  lemma {:induction false} FlatMerge(rs: seq<Region>, k: nat)
    requires WellFormed(rs) && 1 <= k < |rs|
    ensures Start(rs, k) < |Flat(rs)| && Flat(rs)[Start(rs, k)] == rs[k].head[0]
    ensures Flat(Merge(rs, k)) == RemoveAt(Flat(rs), Start(rs, k))
    ensures WellFormed(Merge(rs, k))
  {
    MergeWellFormed(rs, k);
    HeadIsThere(rs, k);
    MergeShape(rs, k);
    OneHead(rs, k);
    hide *;
    var a, b, c, q := Flat(rs[..k - 1]), rs[k - 1], rs[k], Flat(rs[k + 1..]);
    FlatAround(rs, k);
    FlatAround(rs, k - 1);
    FlatPrefix(rs, k);
    FlatAround(Merge(rs, k), k - 1);
    StartIs(rs, k);
    MergeSequences(a, b.head, b.body, c.head, c.body, q);
  }

  lemma {:induction false} OneHead(rs: seq<Region>, k: nat)
    requires WellFormed(rs) && 1 <= k < |rs|
    ensures |rs[k].head| == 1
  {
    assert Headed(rs[k]);
  }

  lemma {:induction false} StartIs(rs: seq<Region>, k: nat)
    requires k <= |rs|
    ensures Start(rs, k) == |Flat(rs[..k])|
  {
  }

  lemma {:induction false} MergeWellFormed(rs: seq<Region>, k: nat)
    requires WellFormed(rs) && 1 <= k < |rs|
    ensures WellFormed(Merge(rs, k))
  {
    hide IsHeader;
    assert Headed(rs[k]) && NoHeaders(rs[k].body) && NoHeaders(rs[k - 1].body);
    assert NoHeaders(rs[k - 1].body + rs[k].body);
    assert k - 1 > 0 ==> Headed(rs[k - 1]);
  }

  lemma {:induction false} MergeShape(rs: seq<Region>, k: nat)
    requires 1 <= k < |rs|
    ensures var m := Merge(rs, k);
      m[..k - 1] == rs[..k - 1] && m[k..] == rs[k + 1..] && m[k - 1].head == rs[k - 1].head
    ensures Merge(rs, k)[k - 1].body == rs[k - 1].body + rs[k].body && |Merge(rs, k)| == |rs| - 1
  {
  }

  lemma {:induction false} FlatPrefix(rs: seq<Region>, k: nat)
    requires 1 <= k <= |rs|
    ensures Flat(rs[..k]) == Flat(rs[..k - 1]) + (rs[k - 1].head + rs[k - 1].body)
  {
    assert rs[..k][..k - 1] == rs[..k - 1];
  }

  lemma {:induction false} MergeSequences<T>(a: seq<T>, h: seq<T>, b: seq<T>, x: seq<T>, c: seq<T>, q: seq<T>)
    requires |x| == 1
    ensures RemoveAt((a + (h + b)) + (x + c) + q, |a + (h + b)|) == a + (h + (b + c)) + q
  {
  }

  lemma {:induction false} DoMerge(d: Doc, rs: seq<Region>, d0: Doc, k: nat)
    requires At(d, rs, d0) && 1 <= k < |rs| && rs[k].head[0].orig.None?
    ensures Valid(d) && Start(rs, k) < |d.lines| && At(Remove(d, Start(rs, k)), Merge(rs, k), d0)
  {
    hide IsHeader, Flat, Tracks, Remove;
    AtLines(d, rs, d0);
    FlatMerge(rs, k);
    TrackRemove(d, Flat(rs), d0, Start(rs, k));
  }

  /** The line before a table is the last one of the region before it. */
  lemma {:induction false} LineBefore(rs: seq<Region>, k: nat)
    requires WellFormed(rs) && 1 <= k < |rs| && rs[k - 1].body != []
    ensures 1 <= Start(rs, k) <= |Flat(rs)|
    ensures Start(rs, k) - 1 == BodyStart(rs, k - 1) + |rs[k - 1].body| - 1
    ensures Flat(rs)[Start(rs, k) - 1] == rs[k - 1].body[|rs[k - 1].body| - 1]
  {
    hide IsHeader;
    FlatAround(rs, k - 1);
    FlatSet(rs, k - 1, |rs[k - 1].body| - 1, rs[k - 1].body[|rs[k - 1].body| - 1]);
  }

  predicate AllBlank(b: seq<TLine>) {
    forall i :: 0 <= i < |b| ==> IsBlank(b[i].line)
  }

  /** The regions without table `k`, and without the empty line before it when there is one to take. */
  function Without(rs: seq<Region>, k: nat, gap: bool): seq<Region>
    requires 1 <= k < |rs| && (gap ==> rs[k - 1].body != [])
  {
    var m := Merge(rs, k);
    if gap then WithBody(m, k - 1, RemoveAt(rs[k - 1].body + rs[k].body, |rs[k - 1].body| - 1)) else m
  }

  lemma {:induction false} DoRemoveEmpty(d: Doc, rs: seq<Region>, d0: Doc, name: string, k: nat, gap: bool)
    requires At(d, rs, d0) && IsName(name) && Only(rs, name, k) && AllBlank(rs[k].body) && rs[k].head[0].orig.None?
    requires gap ==> rs[k - 1].body != [] && rs[k - 1].body[|rs[k - 1].body| - 1] == Own("")
    ensures Valid(d) && RemoveEmptyTable(d, name, gap).Ok?
    ensures At(RemoveEmptyTable(d, name, gap).value, Without(rs, k, gap), d0)
  {
    hide IsHeader, IsTable, Flat, Tracks, Remove, IsBlank, FindTable, Merge;
    AtLines(d, rs, d0);
    TableIs(rs, name, k);
    DoMerge(d, rs, d0, k);
    if gap {
      var d1, m := Remove(d, Start(rs, k)), Merge(rs, k);
      LineBefore(rs, k);
      MergeShape(rs, k);
      BodyStartBefore(rs, m, k);
      AtLines(d1, m, d0);
      DoRemove(d1, m, d0, k - 1, |rs[k - 1].body| - 1);
      FlatSet(m, k - 1, |rs[k - 1].body| - 1, Own(""));
    }
  }

  lemma {:induction false} BodyStartBefore(rs: seq<Region>, m: seq<Region>, k: nat)
    requires 1 <= k < |rs| && k <= |m| && m[..k - 1] == rs[..k - 1] && m[k - 1].head == rs[k - 1].head
    ensures BodyStart(m, k - 1) == BodyStart(rs, k - 1)
  {
  }

  lemma {:induction false} KeepsTable(d: Doc, rs: seq<Region>, d0: Doc, name: string, k: nat, gap: bool, i: nat)
    requires At(d, rs, d0) && IsName(name) && Only(rs, name, k) && i < |rs[k].body| && !IsBlank(rs[k].body[i].line)
    ensures Valid(d) && RemoveEmptyTable(d, name, gap) == Ok(d)
  {
    hide IsHeader, IsTable, Flat, Tracks, Remove, IsBlank, FindTable;
    AtLines(d, rs, d0);
    TableIs(rs, name, k);
    assert Lines(rs[k].body)[i] == rs[k].body[i].line;
  }

  // ---- Taking back a table of one's own, as regions ----

  /** Once the features table is empty it goes, with its gap, and the depth edit stays. */
  lemma {:induction false} FeaturesGone(rs: seq<Region>, p: Plan, line: string)
    requires Describes(rs, p) && p.features.None?
    ensures var g, k := PutDepth(PutMultiAgent(rs, p), p, line), |rs|;
      && k < |g| && g[k].body == [Own(MultiAgentLine())] + GapUnder(PutMultiAgent(rs, p), p, k)
      && g[k].head == [Own(Header(FEATURES))]
      && var h := WithBody(g, k, GapUnder(PutMultiAgent(rs, p), p, k));
      && (p.featuresGap ==> h[k - 1].body != [] && h[k - 1].body[|h[k - 1].body| - 1] == Own(""))
      && Without(h, k, p.featuresGap) == PutDepth(rs, p, line)
  {
    hide Place, TableAt, WellFormed, MultiAgentLine, Header;
    PlanBounds(rs, p);
    DescribesBounds(rs, p);
    var n := |rs|;
    var f := PutMultiAgent(rs, p);
    assert f[n] == NewTable(FEATURES, [MultiAgentLine()]);
    assert NewTable(FEATURES, [MultiAgentLine()]).body == [Own(MultiAgentLine())];
    DepthFrame(f, p, line, n, f[n].body);
    if p.agents.Some? {
      FeaturesGoneKeepingAgents(rs, p, line);
    } else {
      FeaturesGoneBeforeAgents(rs, p, line);
    }
  }

  lemma {:induction false} FeaturesGoneKeepingAgents(rs: seq<Region>, p: Plan, line: string)
    requires rs != [] && p.features.None? && p.agents.Some? && p.agents.value < |rs|
    requires p.depth.Some? ==> p.depth.value < |rs[p.agents.value].body|
    requires p.depth.None? ==> p.slot <= |rs[p.agents.value].body|
    ensures var g, k := PutDepth(PutMultiAgent(rs, p), p, line), |rs|;
      && k < |g|
      && var h := WithBody(g, k, []);
      && (p.featuresGap ==> h[k - 1].body != [] && h[k - 1].body[|h[k - 1].body| - 1] == Own(""))
      && Without(h, k, p.featuresGap) == PutDepth(rs, p, line)
  {
    hide MultiAgentLine, Header, NewTable;
    var n, a := |rs|, p.agents.value;
    var f := PutMultiAgent(rs, p);
    var g := PutDepth(f, p, line);
    var h := WithBody(g, n, []);
    assert h[n - 1].head == rs[n - 1].head && h[..n - 1] == PutDepth(rs, p, line)[..n - 1] && h[n + 1..] == [];
    var last := rs[n - 1].body;
    if a == n - 1 {
      assert h[n - 1].body == PutIn(last + Gap(p.featuresGap), p.depth, p.slot, line);
      GapAfterPut(last, p.depth, p.slot, line, p.featuresGap);
    } else {
      assert h[n - 1].body == last + Gap(p.featuresGap);
    }
    DropGap(PutDepth(rs, p, line)[n - 1].body, p.featuresGap, []);
    assert PutDepth(rs, p, line)[..n - 1] + [PutDepth(rs, p, line)[n - 1]] == PutDepth(rs, p, line);
    WithoutIs(h, n, p.featuresGap, PutDepth(rs, p, line)[n - 1].body, PutDepth(rs, p, line));
  }

  /** Putting a line in before a gap. */
  lemma {:induction false} GapAfterPut(b: seq<TLine>, at: Option<nat>, j: nat, line: string, gap: bool)
    requires (at.Some? ==> at.value < |b|) && (at.None? ==> j <= |b|)
    ensures PutIn(b + Gap(gap), at, j, line) == PutIn(b, at, j, line) + Gap(gap)
  {
    assert b + [] == b;
    assert PutIn(b, at, j, line) + [] == PutIn(b, at, j, line);
  }

  lemma {:induction false} DropGap(b: seq<TLine>, gap: bool, more: seq<TLine>)
    ensures gap ==> RemoveAt(b + Gap(gap) + more, |b + Gap(gap)| - 1) == b + more
    ensures !gap ==> b + Gap(gap) + more == b + more
  {
  }

  lemma {:induction false} WithoutIs(h: seq<Region>, k: nat, gap: bool, b: seq<TLine>, result: seq<Region>)
    requires 1 <= k < |h| && h[k - 1].body == b + Gap(gap) && k <= |result|
    requires result[k - 1] == Region(h[k - 1].head, b + h[k].body)
    requires result[..k - 1] == h[..k - 1] && result[k..] == h[k + 1..]
    ensures gap ==> h[k - 1].body != [] && h[k - 1].body[|h[k - 1].body| - 1] == Own("")
    ensures Without(h, k, gap) == result
  {
    DropGap(b, gap, h[k].body);
    MergeShape(h, k);
    assert result == result[..k - 1] + [result[k - 1]] + result[k..];
  }

  lemma {:induction false} FeaturesGoneBeforeAgents(rs: seq<Region>, p: Plan, line: string)
    requires rs != [] && p.features.None? && p.agents.None?
    ensures var g, k := PutDepth(PutMultiAgent(rs, p), p, line), |rs|;
      && k < |g|
      && var h := WithBody(g, k, Gap(p.agentsGap));
      && (p.featuresGap ==> h[k - 1].body != [] && h[k - 1].body[|h[k - 1].body| - 1] == Own(""))
      && Without(h, k, p.featuresGap) == PutDepth(rs, p, line)
  {
    hide MultiAgentLine, Header, NewTable;
    var n := |rs|;
    var f := PutMultiAgent(rs, p);
    var g := PutDepth(f, p, line);
    var h := WithBody(g, n, Gap(p.agentsGap));
    var result := PutDepth(rs, p, line);
    var last := rs[n - 1].body;
    assert last + [] == last;
    assert h[n - 1].body == last + Gap(p.featuresGap);
    assert result[n - 1] == Region(h[n - 1].head, last + h[n].body);
    assert result[..n - 1] == h[..n - 1] && result[n..] == h[n + 1..] == [NewTable(AGENTS, [line])];
    WithoutIs(h, n, p.featuresGap, last, result);
  }

  /** Once the agents table is empty it goes, with its gap when that was recorded. */
  lemma {:induction false} AgentsGone(rs: seq<Region>, p: Plan, line: string, recorded: bool)
    requires rs != [] && p.agents.None? && (recorded ==> p.agentsGap)
    ensures var g, k := PutDepth(rs, p, line), |rs|;
      && k < |g| && g[k] == NewTable(AGENTS, [line])
      && var h := WithBody(g, k, []);
      && (recorded ==> h[k - 1].body != [] && h[k - 1].body[|h[k - 1].body| - 1] == Own(""))
      && Without(h, k, recorded) == Gapped(rs, p.agentsGap && !recorded)
  {
    hide Header, NewTable;
    var n := |rs|;
    var g := PutDepth(rs, p, line);
    var h := WithBody(g, n, []);
    var last := rs[n - 1].body;
    assert last + [] == last && (last + [Own("")]) + [] == last + [Own("")];
    var result := Gapped(rs, p.agentsGap && !recorded);
    assert h[..n - 1] == rs[..n - 1] && h[n + 1..] == [] && result[n..] == [];
    WithoutIs(h, n, recorded, if recorded then last else h[n - 1].body, result);
  }
}
