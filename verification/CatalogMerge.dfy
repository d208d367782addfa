/**
 * Merging a proxy's model rows into a native catalog and trimming the result to the page the client
 * reads. Rows are objects compared by identity: a row is named by its index in the merged list.
 */
module CatalogMerge {
  import opened Common

  const PAGE_SIZE: nat := 100
  const MAX_SAFE: int := 0x1F_FFFF_FFFF_FFFF
  const WEB_PREFIX: string := "chatgpt-web/"

  /** The fields the merge looks at; `priority` is present when it is a safe integer, `rest` is every other field. */
  datatype Row<T> = Row(slug: Option<string>, listed: bool, inApi: Option<bool>, priority: Option<int>, rest: T)

  /**
   * The row schema: `clean` removes invalid optional fields, none of which the merge looks at; the
   * checks name the first bad field before and after the check of the priority.
   */
  datatype Schema<!T> = Schema(clean: T -> T, before: Row<T> -> Option<string>, after: Row<T> -> Option<string>)

  predicate IsSafe(n: int) {
    -MAX_SAFE <= n <= MAX_SAFE
  }

  function Rejection<T>(schema: Schema<T>, row: Row<T>): Option<string> {
    var before := schema.before(row);
    if before.Some? then before
    else if row.priority.None? || !IsSafe(row.priority.value) then Some("priority")
    else schema.after(row)
  }

  // ---- Trimming to a page ----

  predicate Increasing(ids: seq<nat>) {
    forall i, j :: 0 <= i < j < |ids| ==> ids[i] < ids[j]
  }

  /** The indices of the removable rows. */
  function Candidates(removable: seq<bool>): (ids: seq<nat>)
    ensures forall k :: 0 <= k < |ids| ==> ids[k] < |removable|
  {
    if removable == [] then []
    else
      var n := |removable| - 1;
      Candidates(removable[..n]) + if removable[n] then [n] else []
  }

  lemma {:induction false} CandidatesAre(removable: seq<bool>)
    ensures var ids := Candidates(removable);
      Increasing(ids) && forall i :: i in ids <==> 0 <= i < |removable| && removable[i]
  {
    if removable != [] {
      var n := |removable| - 1;
      CandidatesAre(removable[..n]);
      var init := Candidates(removable[..n]);
      assert forall i :: i in Candidates(removable) <==> i in init || (i == n && removable[n]);
    }
  }

  ghost predicate Within<T>(ids: seq<nat>, models: seq<Row<T>>) {
    forall k :: 0 <= k < |ids| ==> ids[k] < |models|
  }

  /** Take unlisted rows from the front, at most `excess` of them. */
  function FirstUnlisted<T>(models: seq<Row<T>>, ids: seq<nat>, excess: nat): set<nat>
    requires Within(ids, models)
  {
    if ids == [] || excess == 0 then {}
    else if !models[ids[0]].listed then {ids[0]} + FirstUnlisted(models, ids[1..], excess - 1)
    else FirstUnlisted(models, ids[1..], excess)
  }

  /** Take rows not yet taken from the back, at most `excess` of them. */
  function LastOthers(ids: seq<nat>, taken: set<nat>, excess: nat): set<nat> {
    if ids == [] || excess == 0 then {}
    else
      var last := ids[|ids| - 1];
      if last in taken then LastOthers(ids[..|ids| - 1], taken, excess)
      else {last} + LastOthers(ids[..|ids| - 1], taken, excess - 1)
  }

  function Excess(total: nat, pageSize: nat): nat {
    if total > pageSize then total - pageSize else 0
  }

  function DropSet<T>(models: seq<Row<T>>, removable: seq<bool>, pageSize: nat): set<nat>
    requires |removable| == |models|
  {
    var ids, excess := Candidates(removable), Excess(|models|, pageSize);
    var unlisted := FirstUnlisted(models, ids, excess);
    unlisted + LastOthers(ids, unlisted, if |unlisted| < excess then excess - |unlisted| else 0)
  }

  function Kept<T>(models: seq<T>, drop: set<nat>): seq<T> {
    if models == [] then []
    else
      var n := |models| - 1;
      Kept(models[..n], drop) + if n in drop then [] else [models[n]]
  }

  function SlugText<T>(row: Row<T>): string {
    if row.slug.Some? then row.slug.value else "undefined"
  }

  function DroppedSlugs<T>(models: seq<Row<T>>, drop: set<nat>): seq<string> {
    if models == [] then []
    else
      var n := |models| - 1;
      DroppedSlugs(models[..n], drop) + if n in drop then [SlugText(models[n])] else []
  }

  function Min(a: nat, b: nat): nat {
    if a < b then a else b
  }

  /** What a trim to `excess` fewer rows may take: as many as needed, unlisted ones first, listed ones from the end. */
  ghost predicate FairDrop<T>(models: seq<Row<T>>, ids: seq<nat>, excess: nat, drop: set<nat>)
    requires Within(ids, models)
  {
    && (forall i :: i in drop ==> i in ids)
    && |drop| == Min(excess, |ids|)
    && (forall i, j :: i in drop && models[i].listed && j in ids && !models[j].listed ==> j in drop)
    && (forall i, j :: i in drop && models[i].listed && j in ids && models[j].listed && i < j ==> j in drop)
    && (forall i, j :: i in drop && !models[i].listed && j in ids && !models[j].listed && j < i ==> j in drop)
  }

  /** The unlisted rows of a prefix, all of them unless the excess ran out. */
  ghost predicate UnlistedFirst<T>(models: seq<Row<T>>, ids: seq<nat>, excess: nat, d: set<nat>)
    requires Within(ids, models)
  {
    && |d| <= excess
    && (forall i :: i in d ==> i in ids && !models[i].listed)
    && (|d| < excess ==> forall i :: i in ids && !models[i].listed ==> i in d)
    && (forall i, j :: i in d && j in ids && !models[j].listed && j < i ==> j in d)
  }

  /** The rows of a suffix that were not taken before, all of them unless the excess ran out. */
  ghost predicate OthersLast(ids: seq<nat>, taken: set<nat>, excess: nat, d: set<nat>) {
    && d !! taken && |d| <= excess
    && (forall i :: i in d ==> i in ids)
    && (|d| < excess ==> forall i :: i in ids ==> i in d || i in taken)
    && (forall i, j :: i in d && j in ids && i < j ==> j in d || j in taken)
  }

  lemma {:induction false} FirstUnlistedIsFair<T>(models: seq<Row<T>>, ids: seq<nat>, excess: nat)
    requires Within(ids, models) && Increasing(ids)
    ensures UnlistedFirst(models, ids, excess, FirstUnlisted(models, ids, excess))
  {
    if ids != [] && excess > 0 {
      assert forall i :: i in ids <==> i == ids[0] || i in ids[1..];
      assert forall i :: i in ids[1..] ==> ids[0] < i;
      FirstUnlistedIsFair(models, ids[1..], if models[ids[0]].listed then excess else excess - 1);
    }
  }

  lemma {:induction false} LastOthersIsFair(ids: seq<nat>, taken: set<nat>, excess: nat)
    requires Increasing(ids)
    ensures OthersLast(ids, taken, excess, LastOthers(ids, taken, excess))
  {
    if ids != [] && excess > 0 {
      var init, last := ids[..|ids| - 1], ids[|ids| - 1];
      assert forall i :: i in ids <==> i in init || i == last;
      assert forall i :: i in init ==> i < last;
      LastOthersIsFair(init, taken, if last in taken then excess else excess - 1);
    }
  }

  lemma {:induction false} IncreasingCount(ids: seq<nat>, s: set<nat>)
    requires Increasing(ids) && forall i :: i in s <==> i in ids
    ensures |s| == |ids|
  {
    if ids == [] {
      assert s == {};
    } else {
      var init, last := ids[..|ids| - 1], ids[|ids| - 1];
      assert ids == init + [last];
      IncreasingCount(init, s - {last});
    }
  }

  lemma {:induction false} SubsetCount(ids: seq<nat>, s: set<nat>)
    requires Increasing(ids) && forall i :: i in s ==> i in ids
    ensures |s| <= |ids|
    ensures |s| == |ids| ==> forall i :: i in ids ==> i in s
  {
    var all := set i | i in ids;
    IncreasingCount(ids, all);
    assert s <= all;
    assert all == s + (all - s);
    assert |all| == |s| + |all - s|;
    assert |s| == |ids| ==> all - s == {};
  }

  /** Taking `a` first and then `b` takes as many as wanted, or all. */
  lemma {:induction false} TakenCount<T>(models: seq<Row<T>>, ids: seq<nat>, excess: nat, a: set<nat>, b: set<nat>)
    requires Within(ids, models) && Increasing(ids)
    requires UnlistedFirst(models, ids, excess, a) && OthersLast(ids, a, excess - |a|, b)
    ensures |a + b| == Min(excess, |ids|)
  {
    assert |a + b| == |a| + |b|;
    SubsetCount(ids, a + b);
    if |a + b| < excess {
      IncreasingCount(ids, a + b);
    }
  }

  lemma {:induction false} FairUnion<T>(models: seq<Row<T>>, ids: seq<nat>, excess: nat, a: set<nat>, b: set<nat>)
    requires Within(ids, models) && Increasing(ids)
    requires UnlistedFirst(models, ids, excess, a) && OthersLast(ids, a, excess - |a|, b)
    ensures FairDrop(models, ids, excess, a + b)
  {
    hide Increasing;
    TakenCount(models, ids, excess, a, b);
    assert b != {} ==> |b| > 0;
    assert b != {} ==> forall i :: i in ids && !models[i].listed ==> i in a;
  }

  lemma {:induction false} DropSetIsFair<T>(models: seq<Row<T>>, removable: seq<bool>, pageSize: nat)
    requires |removable| == |models|
    ensures FairDrop(models, Candidates(removable), Excess(|models|, pageSize), DropSet(models, removable, pageSize))
  {
    hide FirstUnlisted, LastOthers, Candidates, Increasing, FairDrop, OthersLast;
    var ids, excess := Candidates(removable), Excess(|models|, pageSize);
    CandidatesAre(removable);
    FirstUnlistedIsFair(models, ids, excess);
    var unlisted := FirstUnlisted(models, ids, excess);
    LastOthersIsFair(ids, unlisted, excess - |unlisted|);
    FairUnion(models, ids, excess, unlisted, LastOthers(ids, unlisted, excess - |unlisted|));
  }

  lemma {:induction false} NoExcessDropsNothing<T>(models: seq<Row<T>>, removable: seq<bool>, pageSize: nat)
    requires |removable| == |models| <= pageSize
    ensures DropSet(models, removable, pageSize) == {}
  {
  }

  /** Fairness leaves no choice: two fair drops of the same catalog are the same. */
  lemma {:induction false} FairDropIsUnique<T>(models: seq<Row<T>>, ids: seq<nat>, excess: nat, a: set<nat>,
          b: set<nat>)
    requires Within(ids, models) && FairDrop(models, ids, excess, a) && FairDrop(models, ids, excess, b)
    ensures a == b
  {
    FairDropsNest(models, ids, excess, a, b);
    if a <= b {
      assert b == a + (b - a);
    }
    if b <= a {
      assert a == b + (a - b);
    }
  }

  lemma {:induction false} FairDropsNest<T>(models: seq<Row<T>>, ids: seq<nat>, excess: nat, a: set<nat>, b: set<nat>)
    requires Within(ids, models) && FairDrop(models, ids, excess, a) && FairDrop(models, ids, excess, b)
    ensures a <= b || b <= a
  {
    if i :| i in a && i !in b {
      forall j | j in b
        ensures j in a
      {
      }
    }
  }

  method TakeUnlisted<T>(models: seq<Row<T>>, candidates: seq<nat>, want: nat) returns (drop: set<nat>)
    requires Within(candidates, models) && Increasing(candidates)
    ensures drop == FirstUnlisted(models, candidates, want)
  {
    var excess := want;
    drop := {};
    var k := 0;
    while k < |candidates| && excess > 0
      invariant 0 <= k <= |candidates|
      invariant FirstUnlisted(models, candidates, want) == drop + FirstUnlisted(models, candidates[k..], excess)
    {
      var row := candidates[k];
      assert candidates[k..][1..] == candidates[k + 1..];
      if !models[row].listed {
        drop := drop + {row};
        excess := excess - 1;
      }
      k := k + 1;
    }
  }

  method TakeOthers(candidates: seq<nat>, taken: set<nat>, want: nat) returns (drop: set<nat>)
    requires Increasing(candidates)
    ensures drop == taken + LastOthers(candidates, taken, want)
  {
    var excess := want;
    drop := taken;
    var k := |candidates|;
    assert candidates[..k] == candidates;
    while k > 0 && excess > 0
      invariant 0 <= k <= |candidates|
      invariant taken <= drop
      invariant forall i :: i in drop && i !in taken ==> k < |candidates| && candidates[k] <= i
      invariant taken + LastOthers(candidates, taken, want) == drop + LastOthers(candidates[..k], taken, excess)
    {
      k := k - 1;
      var row := candidates[k];
      assert candidates[..k + 1][..k] == candidates[..k];
      if row !in drop {
        drop := drop + {row};
        excess := excess - 1;
      }
    }
  }

  method WithinCatalogPage<T>(models: seq<Row<T>>, removable: seq<bool>, pageSize: nat)
    returns (kept: seq<Row<T>>, dropped: seq<string>)
    requires |removable| == |models|
    ensures kept == Kept(models, DropSet(models, removable, pageSize))
    ensures dropped == DroppedSlugs(models, DropSet(models, removable, pageSize))
  {
    hide FirstUnlisted, LastOthers, Candidates, Kept, DroppedSlugs;
    var excess: int := |models| - pageSize;
    if excess <= 0 {
      NoExcessDropsNothing(models, removable, pageSize);
      KeepAll(models);
      return models, [];
    }
    var candidates := Candidates(removable);
    CandidatesAre(removable);
    var drop := TakeUnlisted(models, candidates, excess);
    FirstUnlistedIsFair(models, candidates, excess);
    drop := TakeOthers(candidates, drop, excess - |drop|);
    kept, dropped := Kept(models, drop), DroppedSlugs(models, drop);
  }

  lemma {:induction false} KeepAll<T>(models: seq<Row<T>>)
    ensures Kept(models, {}) == models && DroppedSlugs(models, {}) == []
  {
    if models != [] {
      KeepAll(models[..|models| - 1]);
    }
  }

  // ---- Merging ----

  /** The merge so far: the slugs taken, the rows to add, and the rows refused with their first bad field. */
  datatype Merge<T> = Merge(present: set<string>, extra: seq<Row<T>>, rejected: seq<(string, string)>)

  datatype Merged<T> = Merged(models: seq<Row<T>>, added: seq<string>, rejected: seq<(string, string)>,
      dropped: seq<string>)

  function NativeSlugs<T>(natives: seq<Row<T>>): set<string> {
    set i | 0 <= i < |natives| && natives[i].slug.Some? :: natives[i].slug.value
  }

  function BasePriority<T>(natives: seq<Row<T>>): (n: nat)
    ensures forall i :: 0 <= i < |natives| && natives[i].priority.Some? ==> natives[i].priority.value <= n
  {
    if natives == [] then 0
    else
      var last, n := natives[|natives| - 1], BasePriority(natives[..|natives| - 1]);
      assert forall i :: 0 <= i < |natives| - 1 ==> natives[i] == natives[..|natives| - 1][i];
      if last.priority.Some? && last.priority.value > n then last.priority.value else n
  }

  predicate IsWeb(slug: string) {
    WEB_PREFIX <= slug
  }

  /** The row a proxy row becomes: served by the bridge, ranked after every native row. */
  function Candidate<T>(schema: Schema<T>, base: nat, index: nat, source: Row<T>): Row<T> {
    Row(source.slug, source.listed, Some(true), Some(base + 1 + index), schema.clean(source.rest))
  }

  ghost predicate Slugged<T>(rows: seq<Row<T>>) {
    forall i :: 0 <= i < |rows| ==> rows[i].slug.Some?
  }

  function Consider<T>(schema: Schema<T>, base: nat, m: Merge<T>, index: nat, source: Row<T>): Merge<T>
    requires source.slug.Some?
  {
    var slug := source.slug.value;
    if slug in m.present || IsWeb(slug) then m
    else
      var candidate := Candidate(schema, base, index, source);
      match Rejection(schema, candidate)
      case Some(field) => m.(rejected := m.rejected + [(slug, field)])
      case None => m.(present := m.present + {slug}, extra := m.extra + [candidate])
  }

  function Collect<T>(schema: Schema<T>, natives: seq<Row<T>>, proxies: seq<Row<T>>): Merge<T>
    requires Slugged(proxies)
  {
    if proxies == [] then Merge(NativeSlugs(natives), [], [])
    else
      var n := |proxies| - 1;
      Consider(schema, BasePriority(natives), Collect(schema, natives, proxies[..n]), n, proxies[n])
  }

  function Removable(natives: nat, extra: nat): seq<bool> {
    seq(natives + extra, i => i >= natives)
  }

  function Slugs<T>(rows: seq<Row<T>>): seq<string> {
    seq(|rows|, i requires 0 <= i < |rows| => SlugText(rows[i]))
  }

  function WithoutSlugs(slugs: seq<string>, gone: seq<string>): seq<string> {
    if slugs == [] then []
    else
      var n := |slugs| - 1;
      WithoutSlugs(slugs[..n], gone) + if slugs[n] in gone then [] else [slugs[n]]
  }

  function MergeOf<T>(schema: Schema<T>, natives: seq<Row<T>>, proxies: seq<Row<T>>): Merged<T>
    requires Slugged(proxies)
  {
    var m := Collect(schema, natives, proxies);
    var all := natives + m.extra;
    var drop := DropSet(all, Removable(|natives|, |m.extra|), PAGE_SIZE);
    var dropped := DroppedSlugs(all, drop);
    Merged(Kept(all, drop), WithoutSlugs(Slugs(m.extra), dropped), m.rejected, dropped)
  }

  /** A row that may be added: new, not reserved, passing the schema, ranked above `base`. */
  ghost predicate Addable<T>(schema: Schema<T>, row: Row<T>, taken: set<string>, base: nat) {
    && row.slug.Some? && row.slug.value !in taken && !IsWeb(row.slug.value)
    && row.priority.Some? && base < row.priority.value <= MAX_SAFE
    && row.inApi == Some(true) && Rejection(schema, row).None?
  }

  predicate Precedes<T>(a: Row<T>, b: Row<T>) {
    a.slug != b.slug && a.priority.Some? && b.priority.Some? && a.priority.value < b.priority.value
  }

  /** Addable rows with distinct slugs and strictly increasing priorities. */
  ghost predicate Ranked<T>(schema: Schema<T>, rows: seq<Row<T>>, taken: set<string>, base: nat) {
    && (forall i :: 0 <= i < |rows| ==> Addable(schema, rows[i], taken, base))
    && (forall i, j :: 0 <= i < j < |rows| ==> Precedes(rows[i], rows[j]))
  }

  /** What became of one proxy row: it came from there, its slug is taken or reserved, or it was refused. */
  ghost predicate Settled<T>(schema: Schema<T>, natives: seq<Row<T>>, m: Merge<T>, index: nat, source: Row<T>)
    requires source.slug.Some?
  {
    || IsWeb(source.slug.value)
    || source.slug.value in m.present
    || (exists field :: (source.slug.value, field) in m.rejected &&
         Rejection(schema, Candidate(schema, BasePriority(natives), index, source)) == Some(field))
  }

  lemma {:induction false} RankedMeans<T>(schema: Schema<T>, rows: seq<Row<T>>, taken: set<string>, base: nat)
    requires Ranked(schema, rows, taken, base)
    ensures Slugged(rows) && forall i, j :: 0 <= i < j < |rows| ==> rows[i].slug != rows[j].slug
  {
    forall i, j | 0 <= i < j < |rows|
      ensures rows[i].slug != rows[j].slug
    {
      assert Precedes(rows[i], rows[j]);
    }
  }

  lemma {:induction false} CollectIsRanked<T>(schema: Schema<T>, natives: seq<Row<T>>, proxies: seq<Row<T>>)
    requires Slugged(proxies)
    ensures var m := Collect(schema, natives, proxies);
      && Ranked(schema, m.extra, NativeSlugs(natives), BasePriority(natives))
      && (forall i :: 0 <= i < |m.extra| ==> m.extra[i].priority.value <= BasePriority(natives) + |proxies|)
      && (forall slug :: slug in m.present <==>
            slug in NativeSlugs(natives) || exists i :: 0 <= i < |m.extra| && m.extra[i].slug == Some(slug))
  {
    hide BasePriority, NativeSlugs, IsWeb;
    if proxies != [] {
      var n := |proxies| - 1;
      CollectIsRanked(schema, natives, proxies[..n]);
      var before, after := Collect(schema, natives, proxies[..n]), Collect(schema, natives, proxies);
      if |after.extra| > |before.extra| {
        assert after.extra[|before.extra|].slug == proxies[n].slug;
        assert forall i :: 0 <= i < |before.extra| ==> after.extra[i] == before.extra[i];
      }
    }
  }

  lemma {:induction false} EveryProxyRowIsSettled<T>(schema: Schema<T>, natives: seq<Row<T>>, proxies: seq<Row<T>>,
          k: nat)
    requires Slugged(proxies) && k < |proxies|
    ensures Settled(schema, natives, Collect(schema, natives, proxies), k, proxies[k])
  {
    hide BasePriority, NativeSlugs, IsWeb, Rejection;
    var n := |proxies| - 1;
    var before, after := Collect(schema, natives, proxies[..n]), Collect(schema, natives, proxies);
    assert forall x :: x in before.rejected ==> x in after.rejected;
    if k < n {
      EveryProxyRowIsSettled(schema, natives, proxies[..n], k);
    } else if proxies[n].slug.value !in after.present && !IsWeb(proxies[n].slug.value) {
      var field := Rejection(schema, Candidate(schema, BasePriority(natives), n, proxies[n])).value;
      assert after.rejected[|before.rejected|] == (proxies[n].slug.value, field);
    }
  }

  /** The part of the kept rows that comes after an offset. */
  function KeptAfter<T>(rows: seq<T>, offset: nat, drop: set<nat>): seq<T> {
    if rows == [] then []
    else
      var n := |rows| - 1;
      KeptAfter(rows[..n], offset, drop) + if offset + n in drop then [] else [rows[n]]
  }

  lemma {:induction false} KeptSplits<T>(first: seq<T>, rest: seq<T>, drop: set<nat>)
    requires forall i :: i in drop ==> |first| <= i
    ensures Kept(first + rest, drop) == first + KeptAfter(rest, |first|, drop)
  {
    if rest != [] {
      var n := |rest| - 1;
      KeptSplits(first, rest[..n], drop);
      assert (first + rest)[..|first| + n] == first + rest[..n];
    } else if first != [] {
      KeptSplits(first[..|first| - 1], [], drop);
      assert first + rest == first && first[..|first| - 1] + [] == first[..|first| - 1];
    }
  }

  lemma {:induction false} KeptCount<T>(rows: seq<T>, drop: set<nat>)
    requires forall i :: i in drop ==> i < |rows|
    ensures |Kept(rows, drop)| == |rows| - |drop|
  {
    if rows == [] {
      assert drop == {};
    } else {
      var n := |rows| - 1;
      KeptCount(rows[..n], drop - {n});
      KeptIgnores(rows[..n], drop, n);
    }
  }

  lemma {:induction false} KeptIgnores<T>(rows: seq<T>, drop: set<nat>, n: nat)
    requires |rows| <= n
    ensures Kept(rows, drop) == Kept(rows, drop - {n})
  {
    if rows != [] {
      KeptIgnores(rows[..|rows| - 1], drop, n);
    }
  }

  lemma {:induction false} KeptStaysRanked<T>(schema: Schema<T>, rows: seq<Row<T>>, taken: set<string>, base: nat,
          offset: nat, drop: set<nat>)
    requires Ranked(schema, rows, taken, base)
    ensures var kept := KeptAfter(rows, offset, drop);
      Ranked(schema, kept, taken, base) && (forall i :: 0 <= i < |kept| ==> kept[i] in rows)
  {
    hide Addable, Precedes;
    if rows != [] {
      var n := |rows| - 1;
      KeptStaysRanked(schema, rows[..n], taken, base, offset, drop);
      var kept := KeptAfter(rows[..n], offset, drop);
      forall i | 0 <= i < |kept|
        ensures Precedes(kept[i], rows[n]) && kept[i] in rows
      {
        assert kept[i] in rows[..n];
        var j :| 0 <= j < n && rows[j] == kept[i];
      }
    }
  }

  lemma {:induction false} AddedAreKept<T>(rows: seq<Row<T>>, offset: nat, drop: set<nat>, gone: seq<string>)
    requires Slugged(rows)
    requires forall k :: 0 <= k < |rows| ==> (rows[k].slug.value in gone <==> offset + k in drop)
    ensures WithoutSlugs(Slugs(rows), gone) == Slugs(KeptAfter(rows, offset, drop))
  {
    if rows != [] {
      var n := |rows| - 1;
      AddedAreKept(rows[..n], offset, drop, gone);
      assert Slugs(rows)[..n] == Slugs(rows[..n]);
    }
  }

  lemma {:induction false} DroppedSlugsAre<T>(rows: seq<Row<T>>, drop: set<nat>)
    ensures forall s :: s in DroppedSlugs(rows, drop) <==>
      exists i :: 0 <= i < |rows| && i in drop && SlugText(rows[i]) == s
  {
    if rows != [] {
      var n := |rows| - 1;
      DroppedSlugsAre(rows[..n], drop);
      assert forall i :: 0 <= i < n ==> rows[..n][i] == rows[i];
    }
  }

  /** The drop of a merge names added rows only. */
  lemma {:induction false} DropTakesExtras<T>(natives: seq<Row<T>>, extra: seq<Row<T>>)
    ensures var drop := DropSet(natives + extra, Removable(|natives|, |extra|), PAGE_SIZE);
      && (forall i :: i in drop ==> |natives| <= i < |natives| + |extra|)
      && |drop| == Min(Excess(|natives| + |extra|, PAGE_SIZE), |extra|)
  {
    hide DropSet, Candidates;
    var all, removable := natives + extra, Removable(|natives|, |extra|);
    DropSetIsFair(all, removable, PAGE_SIZE);
    CandidatesCount(|natives|, |extra|);
    CandidatesAre(removable);
    forall i | i in DropSet(all, removable, PAGE_SIZE)
      ensures |natives| <= i < |natives| + |extra|
    {
      assert i in Candidates(removable);
    }
  }

  lemma {:induction false} CandidatesCount(a: nat, n: nat)
    ensures |Candidates(Removable(a, n))| == n
    decreases a + n
  {
    if n > 0 {
      CandidatesCount(a, n - 1);
      assert Removable(a, n)[..a + n - 1] == Removable(a, n - 1);
    } else if a > 0 {
      CandidatesCount(a - 1, 0);
      assert Removable(a, 0)[..a - 1] == Removable(a - 1, 0);
    }
  }

  /**
   * The native rows survive as the prefix; the rows after them are new, distinct, ranked strictly above
   * every native row, and are the ones reported as added; the size is the page unless the native rows
   * alone exceed it.
   */
  lemma {:induction false} MergeKeepsNatives<T>(schema: Schema<T>, natives: seq<Row<T>>, proxies: seq<Row<T>>)
    requires Slugged(proxies)
    ensures var m, r := Collect(schema, natives, proxies), MergeOf(schema, natives, proxies);
      && natives <= r.models
      && Slugged(m.extra)
      && Ranked(schema, r.models[|natives|..], NativeSlugs(natives), BasePriority(natives))
      && (forall x :: x in r.models[|natives|..] ==> x in m.extra)
      && r.added == Slugs(r.models[|natives|..])
      && |r.models| == (if |natives| + |m.extra| <= PAGE_SIZE then |natives| + |m.extra|
                        else if |natives| < PAGE_SIZE then PAGE_SIZE else |natives|)
  {
    hide DropSet, Addable, Precedes, BasePriority, NativeSlugs, Kept, KeptAfter, Collect, DroppedSlugs, WithoutSlugs;
    hide Slugs;
    var m := Collect(schema, natives, proxies);
    var all := natives + m.extra;
    var drop := DropSet(all, Removable(|natives|, |m.extra|), PAGE_SIZE);
    CollectIsRanked(schema, natives, proxies);
    DropTakesExtras(natives, m.extra);
    KeptSplits(natives, m.extra, drop);
    KeptCount(all, drop);
    var kept := KeptAfter(m.extra, |natives|, drop);
    KeptStaysRanked(schema, m.extra, NativeSlugs(natives), BasePriority(natives), |natives|, drop);
    assert (natives + kept)[|natives|..] == kept;
    RankedMeans(schema, m.extra, NativeSlugs(natives), BasePriority(natives));
    DroppedSlugsMatch(natives, m.extra, drop);
    AddedAreKept(m.extra, |natives|, drop, DroppedSlugs(all, drop));
  }

  lemma {:induction false} DroppedSlugsMatch<T>(natives: seq<Row<T>>, extra: seq<Row<T>>, drop: set<nat>)
    requires Slugged(extra) && forall i, j :: 0 <= i < j < |extra| ==> extra[i].slug != extra[j].slug
    requires forall i :: i in drop ==> |natives| <= i < |natives| + |extra|
    ensures forall k :: 0 <= k < |extra| ==>
      (extra[k].slug.value in DroppedSlugs(natives + extra, drop) <==> |natives| + k in drop)
  {
    var all := natives + extra;
    DroppedSlugsAre(all, drop);
    forall k | 0 <= k < |extra|
      ensures extra[k].slug.value in DroppedSlugs(all, drop) <==> |natives| + k in drop
    {
      assert all[|natives| + k] == extra[k];
      if extra[k].slug.value in DroppedSlugs(all, drop) {
        var i :| 0 <= i < |all| && i in drop && SlugText(all[i]) == extra[k].slug.value;
        assert all[i] == extra[i - |natives|];
      }
    }
  }

  method MergeCliProxyModels<T>(schema: Schema<T>, models: seq<Option<Row<T>>>, proxies: seq<Row<T>>)
    returns (r: Merged<T>)
    requires Slugged(proxies)
    ensures r == MergeOf(schema, Objects(models), proxies)
  {
    var natives := Objects(models);
    var base := BasePriority(natives);
    var present := NativeSlugs(natives);
    var extra: seq<Row<T>>, rejected: seq<(string, string)> := [], [];
    for index := 0 to |proxies|
      invariant Merge(present, extra, rejected) == Collect(schema, natives, proxies[..index])
    {
      assert proxies[..index + 1][..index] == proxies[..index];
      var slug := proxies[index].slug.value;
      if slug in present || IsWeb(slug) {
        continue;
      }
      var candidate := Candidate(schema, base, index, proxies[index]);
      var field := Rejection(schema, candidate);
      if field.Some? {
        rejected := rejected + [(slug, field.value)];
        continue;
      }
      present := present + {slug};
      extra := extra + [candidate];
    }
    assert proxies[..|proxies|] == proxies;
    var kept, dropped := WithinCatalogPage(natives + extra, Removable(|natives|, |extra|), PAGE_SIZE);
    r := Merged(kept, WithoutSlugs(Slugs(extra), dropped), rejected, dropped);
  }

  /** The entries of the catalog that are objects. */
  function Objects<T>(models: seq<Option<Row<T>>>): seq<Row<T>> {
    if models == [] then []
    else
      var last := models[|models| - 1];
      Objects(models[..|models| - 1]) + if last.Some? then [last.value] else []
  }
}
