/**
 * Which proxy rows a merge adds, drops and refuses, and what it writes into them: told from the two catalogs and the
 * row schema alone.
 */
module CatalogRows {
  import opened Common
  import opened CatalogMerge

  /** The highest rank of a native row, but at least 0. */
  predicate TopRank<T>(natives: seq<Row<T>>, n: int) {
    && (forall i :: 0 <= i < |natives| && natives[i].priority.Some? ==> natives[i].priority.value <= n)
    && (n == 0 || (n > 0 && exists i :: 0 <= i < |natives| && natives[i].priority == Some(n)))
  }

  /** The row for proxy row `k`: its own slug and visibility, its other fields cleaned, ranked by place. */
  ghost predicate Becomes<T(!new)>(schema: Schema<T>, natives: seq<Row<T>>, proxies: seq<Row<T>>, k: nat, row: Row<T>)
    requires k < |proxies|
  {
    && row.slug == proxies[k].slug && row.listed == proxies[k].listed && row.inApi == Some(true)
    && row.rest == schema.clean(proxies[k].rest)
    && row.priority.Some? && TopRank(natives, row.priority.value - k - 1)
  }

  /** The first field of a row that the schema refuses, the rank being checked between the other fields. */
  ghost predicate FirstBad<T(!new)>(schema: Schema<T>, row: Row<T>, field: Option<string>) {
    if schema.before(row).Some? then field == schema.before(row)
    else if row.priority.Some? && -0x1F_FFFF_FFFF_FFFF <= row.priority.value <= 0x1F_FFFF_FFFF_FFFF then
      field == schema.after(row)
    else field == Some("priority")
  }

  /** The row proxy row `k` becomes passes the schema. */
  ghost predicate Good<T(!new)>(schema: Schema<T>, natives: seq<Row<T>>, proxies: seq<Row<T>>, k: nat)
    requires k < |proxies|
  {
    exists row :: Becomes(schema, natives, proxies, k, row) && FirstBad(schema, row, None)
  }

  /** The slug is neither reserved, nor a native row's, nor that of an earlier row that passes. */
  ghost predicate IsNew<T(!new)>(schema: Schema<T>, natives: seq<Row<T>>, proxies: seq<Row<T>>, k: nat)
    requires k < |proxies| && proxies[k].slug.Some?
  {
    && !("chatgpt-web/" <= proxies[k].slug.value)
    && (forall i :: 0 <= i < |natives| ==> natives[i].slug != proxies[k].slug)
    && forall i :: 0 <= i < k && proxies[i].slug == proxies[k].slug ==> !Good(schema, natives, proxies, i)
  }

  ghost predicate AddedFrom<T(!new)>(schema: Schema<T>, natives: seq<Row<T>>, proxies: seq<Row<T>>, k: nat, row: Row<T>)
    requires k < |proxies| && proxies[k].slug.Some?
  {
    && IsNew(schema, natives, proxies, k)
    && Becomes(schema, natives, proxies, k, row) && FirstBad(schema, row, None)
  }

  ghost predicate RefusedFor<T(!new)>(schema: Schema<T>, natives: seq<Row<T>>, proxies: seq<Row<T>>, k: nat,
          slug: string, field: string)
    requires k < |proxies| && proxies[k].slug.Some?
  {
    && proxies[k].slug.value == slug && IsNew(schema, natives, proxies, k)
    && exists row :: Becomes(schema, natives, proxies, k, row) && FirstBad(schema, row, Some(field))
  }

  lemma {:induction false} TopRankIs<T>(natives: seq<Row<T>>, n: int)
    ensures TopRank(natives, n) <==> n == BasePriority(natives)
  {
    BaseIsReached(natives);
  }

  lemma {:induction false} BaseIsReached<T>(natives: seq<Row<T>>)
    ensures var n := BasePriority(natives);
      n == 0 || exists i :: 0 <= i < |natives| && natives[i].priority == Some(n)
  {
    if natives != [] {
      var init := natives[..|natives| - 1];
      BaseIsReached(init);
      if i :| 0 <= i < |init| && init[i].priority == Some(BasePriority(init)) {
        assert natives[i] == init[i];
      }
      assert natives[|init|] == natives[|natives| - 1];
    }
  }

  /** The one row a proxy row becomes, and its check. */
  lemma {:induction false} CandidateIs<T(!new)>(schema: Schema<T>, natives: seq<Row<T>>, proxies: seq<Row<T>>, k: nat)
    requires k < |proxies|
    ensures var c := Candidate(schema, BasePriority(natives), k, proxies[k]);
      && (forall row :: Becomes(schema, natives, proxies, k, row) <==> row == c)
      && (forall field :: FirstBad(schema, c, field) <==> field == Rejection(schema, c))
  {
    hide BasePriority, TopRank;
    var base := BasePriority(natives);
    TopRankIs(natives, base);
    forall row | Becomes(schema, natives, proxies, k, row)
      ensures row == Candidate(schema, base, k, proxies[k])
    {
      TopRankIs(natives, row.priority.value - k - 1);
    }
  }

  /** What a merge of the first `n` proxy rows holds. */
  ghost predicate Holds<T(!new)>(schema: Schema<T>, natives: seq<Row<T>>, proxies: seq<Row<T>>, n: nat, m: Merge<T>)
    requires n <= |proxies| && Slugged(proxies)
  {
    && (forall row :: row in m.extra <==> exists k: nat :: k < n && AddedFrom(schema, natives, proxies, k, row))
    && (forall slug, field :: (slug, field) in m.rejected <==>
          exists k: nat :: k < n && RefusedFor(schema, natives, proxies, k, slug, field))
  }

  /** A slug is taken when a native row has it or an earlier row that was added. */
  lemma {:induction false} NewIsNotPresent<T(!new)>(schema: Schema<T>, natives: seq<Row<T>>, proxies: seq<Row<T>>,
          n: nat)
    requires n < |proxies| && Slugged(proxies)
    requires Holds(schema, natives, proxies, n, Collect(schema, natives, proxies[..n]))
    ensures IsNew(schema, natives, proxies, n) <==>
      !IsWeb(proxies[n].slug.value) && proxies[n].slug.value !in Collect(schema, natives, proxies[..n]).present
  {
    hide Becomes, FirstBad, Ranked, BasePriority, Collect;
    var m, slug := Collect(schema, natives, proxies[..n]), proxies[n].slug.value;
    CollectIsRanked(schema, natives, proxies[..n]);
    assert slug in NativeSlugs(natives) <==> exists i :: 0 <= i < |natives| && natives[i].slug == Some(slug);
    var free := slug !in NativeSlugs(natives) && !IsWeb(slug);
    if i :| free && 0 <= i < n && proxies[i].slug == Some(slug) && Good(schema, natives, proxies, i) {
      var first := FirstGood(schema, natives, proxies, i);
      var row :| Becomes(schema, natives, proxies, first, row) && FirstBad(schema, row, None);
      assert AddedFrom(schema, natives, proxies, first, row);
      assert row in m.extra;
      SlugOf(schema, natives, proxies, first, row);
    }
    if j :| 0 <= j < |m.extra| && m.extra[j].slug == Some(slug) {
      var row := m.extra[j];
      assert row in m.extra;
      var k: nat :| k < n && AddedFrom(schema, natives, proxies, k, row);
      SlugOf(schema, natives, proxies, k, row);
    }
  }

  lemma {:induction false} SlugOf<T(!new)>(schema: Schema<T>, natives: seq<Row<T>>, proxies: seq<Row<T>>, k: nat,
          row: Row<T>)
    requires k < |proxies| && Becomes(schema, natives, proxies, k, row)
    ensures row.slug == proxies[k].slug
  {
  }

  /** The first row of a slug that passes. */
  lemma {:induction false} FirstGood<T(!new)>(schema: Schema<T>, natives: seq<Row<T>>, proxies: seq<Row<T>>, i: nat)
    returns (k: nat)
    requires i < |proxies| && Slugged(proxies) && Good(schema, natives, proxies, i)
    requires !("chatgpt-web/" <= proxies[i].slug.value)
    requires forall a :: 0 <= a < |natives| ==> natives[a].slug != proxies[i].slug
    ensures k <= i && proxies[k].slug == proxies[i].slug && Good(schema, natives, proxies, k)
    ensures IsNew(schema, natives, proxies, k)
  {
    hide Good;
    if j :| 0 <= j < i && proxies[j].slug == proxies[i].slug && Good(schema, natives, proxies, j) {
      k := FirstGood(schema, natives, proxies, j);
    } else {
      k := i;
    }
  }

  /** One more row: what it adds and what it refuses. */
  lemma {:induction false} StepHolds<T(!new)>(schema: Schema<T>, natives: seq<Row<T>>, proxies: seq<Row<T>>, n: nat,
          m: Merge<T>)
    requires n < |proxies| && Slugged(proxies) && Holds(schema, natives, proxies, n, m)
    requires IsNew(schema, natives, proxies, n) <==>
      !IsWeb(proxies[n].slug.value) && proxies[n].slug.value !in m.present
    ensures Holds(schema, natives, proxies, n + 1, Consider(schema, BasePriority(natives), m, n, proxies[n]))
  {
    hide Becomes, FirstBad, IsNew, Candidate, Rejection, BasePriority;
    CandidateIs(schema, natives, proxies, n);
    var c := Candidate(schema, BasePriority(natives), n, proxies[n]);
    var after := Consider(schema, BasePriority(natives), m, n, proxies[n]);
    forall row
      ensures row in after.extra <==> row in m.extra || AddedFrom(schema, natives, proxies, n, row)
    {
    }
    forall slug, field
      ensures (slug, field) in after.rejected <==>
        (slug, field) in m.rejected || RefusedFor(schema, natives, proxies, n, slug, field)
    {
      assert Becomes(schema, natives, proxies, n, c);
    }
  }

  lemma {:induction false} CollectHolds<T(!new)>(schema: Schema<T>, natives: seq<Row<T>>, proxies: seq<Row<T>>, n: nat)
    requires n <= |proxies| && Slugged(proxies)
    ensures Holds(schema, natives, proxies, n, Collect(schema, natives, proxies[..n]))
  {
    hide AddedFrom, RefusedFor, IsNew, BasePriority, Consider;
    if n > 0 {
      CollectHolds(schema, natives, proxies, n - 1);
      NewIsNotPresent(schema, natives, proxies, n - 1);
      StepHolds(schema, natives, proxies, n - 1, Collect(schema, natives, proxies[..n - 1]));
      assert proxies[..n][..n - 1] == proxies[..n - 1];
    }
  }

  /**
   * A merge adds exactly the rows of new slugs that pass the schema, each as it says; and it refuses exactly the rows
   * of new slugs that do not, naming their first bad field.
   */
  lemma {:induction false} RowsExactlyWhen<T(!new)>(schema: Schema<T>, natives: seq<Row<T>>, proxies: seq<Row<T>>)
    requires Slugged(proxies)
    ensures Holds(schema, natives, proxies, |proxies|, Collect(schema, natives, proxies))
  {
    hide Holds, Collect;
    CollectHolds(schema, natives, proxies, |proxies|);
    assert proxies[..|proxies|] == proxies;
  }

  /** The catalog that is served: the native rows, then exactly the added rows that no fair drop takes. */
  lemma {:induction false} DroppedExactlyWhen<T(!new)>(schema: Schema<T>, natives: seq<Row<T>>, proxies: seq<Row<T>>,
          drop: set<nat>)
    requires Slugged(proxies)
    requires var all := natives + Collect(schema, natives, proxies).extra;
      var ids := Candidates(Removable(|natives|, |all| - |natives|));
      Within(ids, all) && FairDrop(all, ids, Excess(|all|, PAGE_SIZE), drop)
    ensures var m, r := Collect(schema, natives, proxies), MergeOf(schema, natives, proxies);
      && r.rejected == m.rejected && natives <= r.models
      && (forall i :: 0 <= i < |m.extra| ==> (m.extra[i] in r.models[|natives|..] <==> |natives| + i !in drop))
      && (forall slug :: slug in r.dropped <==>
            exists i :: 0 <= i < |m.extra| && |natives| + i in drop && m.extra[i].slug == Some(slug))
  {
    hide DropSet, FairDrop, Candidates, Kept, KeptAfter, Collect, DroppedSlugs, Slugs, WithoutSlugs, Increasing, Ranked;
    var m := Collect(schema, natives, proxies);
    var all := natives + m.extra;
    var removable := Removable(|natives|, |m.extra|);
    CandidatesAre(removable);
    DropSetIsFair(all, removable, PAGE_SIZE);
    FairDropIsUnique(all, Candidates(removable), Excess(|all|, PAGE_SIZE), drop, DropSet(all, removable, PAGE_SIZE));
    DropTakesExtras(natives, m.extra);
    KeptSplits(natives, m.extra, drop);
    assert (natives + KeptAfter(m.extra, |natives|, drop))[|natives|..] == KeptAfter(m.extra, |natives|, drop);
    CollectIsRanked(schema, natives, proxies);
    RankedMeans(schema, m.extra, NativeSlugs(natives), BasePriority(natives));
    KeptAfterAre(m.extra, |natives|, drop);
    DroppedOnes(natives, m.extra, drop);
  }

  lemma {:induction false} DroppedOnes<T>(natives: seq<Row<T>>, extra: seq<Row<T>>, drop: set<nat>)
    requires Slugged(extra) && forall i :: i in drop ==> |natives| <= i < |natives| + |extra|
    ensures forall slug :: slug in DroppedSlugs(natives + extra, drop) <==>
      exists i :: 0 <= i < |extra| && |natives| + i in drop && extra[i].slug == Some(slug)
  {
    var all := natives + extra;
    DroppedSlugsAre(all, drop);
    forall slug
      ensures slug in DroppedSlugs(all, drop) <==>
        exists i :: 0 <= i < |extra| && |natives| + i in drop && extra[i].slug == Some(slug)
    {
      if k :| 0 <= k < |all| && k in drop && SlugText(all[k]) == slug {
        assert all[k] == extra[k - |natives|];
      }
      if i :| 0 <= i < |extra| && |natives| + i in drop && extra[i].slug == Some(slug) {
        assert all[|natives| + i] == extra[i];
      }
    }
  }

  lemma {:induction false} KeptAfterAre<T>(rows: seq<Row<T>>, offset: nat, drop: set<nat>)
    requires Slugged(rows) && forall i, j :: 0 <= i < j < |rows| ==> rows[i].slug != rows[j].slug
    ensures forall x :: x in KeptAfter(rows, offset, drop) ==> x in rows
    ensures forall i :: 0 <= i < |rows| ==> (rows[i] in KeptAfter(rows, offset, drop) <==> offset + i !in drop)
  {
    if rows != [] {
      var n := |rows| - 1;
      KeptAfterAre(rows[..n], offset, drop);
      forall i | 0 <= i < n
        ensures rows[i] in KeptAfter(rows, offset, drop) <==> offset + i !in drop
      {
        assert rows[..n][i] == rows[i];
      }
      assert rows[n] !in rows[..n];
    }
  }
}
