/** The last native model catalog served per client version and account, kept in memory. */
module CatalogCache {
  import opened Common
  import opened Recency

  const MAX_ENTRIES: nat := 8
  const MAX_ETAG: nat := 512

  datatype Key = Key(clientVersion: string, accountHash: string)

  /** A stored catalog; its contents do not matter here, so they are one opaque text. */
  datatype Stored = Stored(catalog: string, etag: Option<string>, fetchedAt: int)

  datatype Snapshot = Snapshot(catalog: string, etag: Option<string>, fetchedAt: int, ageSec: int)

  type Entries = seq<Entry<Key, Stored>>

  predicate Fresh(s: Stored, now: int, maxAge: nat) {
    0 <= now - s.fetchedAt <= maxAge
  }

  function KeepEtag(etag: Option<string>): Option<string> {
    if etag.Some? && 0 < |etag.value| <= MAX_ETAG then etag else None
  }

  /** The pruning pass over all entries. */
  function Prune(es: Entries, now: int, maxAge: nat): Entries {
    if es == [] then []
    else if Fresh(es[0].value, now, maxAge) then [es[0]] + Prune(es[1..], now, maxAge)
    else Prune(es[1..], now, maxAge)
  }

  function Remembered(es: Entries, e: Entry<Key, Stored>, now: int, maxAge: nat): Entries {
    Newest(Prune(Without(es, e.key) + [e], now, maxAge), MAX_ENTRIES)
  }

  function SnapshotAt(s: Stored, now: int): Snapshot {
    Snapshot(s.catalog, s.etag, s.fetchedAt, if now < s.fetchedAt then 0 else (now - s.fetchedAt) / 1000)
  }

  function Looked(es: Entries, key: Key, now: int, maxAge: nat): Option<Snapshot> {
    match Find(es, key)
    case None => None
    case Some(s) => if Fresh(s, now, maxAge) then Some(SnapshotAt(s, now)) else None
  }

  // ---- Against the history of remember calls ----

  /** The clock never goes back: each call is stamped no earlier than the ones before it. */
  predicate Monotone(h: Entries) {
    forall i, j :: 0 <= i < j < |h| ==> h[i].value.fetchedAt <= h[j].value.fetchedAt
  }

  predicate NotBefore(h: Entries, now: int) {
    forall i :: 0 <= i < |h| ==> h[i].value.fetchedAt <= now
  }

  /** The entries after a history of remember calls, each made at its own stamp. */
  function Cached(h: Entries, maxAge: nat): Entries {
    if h == [] then []
    else
      var e := h[|h| - 1];
      Remembered(Cached(h[..|h| - 1], maxAge), e, e.value.fetchedAt, maxAge)
  }

  /** What the history says a lookup must give. */
  function Expected(h: Entries, key: Key, now: int, maxAge: nat): Option<Snapshot> {
    match Latest(h, key)
    case None => None
    case Some(s) =>
      if now - s.fetchedAt <= maxAge && |Since(h, key)| < MAX_ENTRIES then Some(SnapshotAt(s, now)) else None
  }

  predicate Sorted(es: Entries) {
    es == [] || (NotAfter(es[0].value.fetchedAt, es[1..]) && Sorted(es[1..]))
  }

  predicate NotAfter(t: int, es: Entries) {
    es == [] || (t <= es[0].value.fetchedAt && NotAfter(t, es[1..]))
  }

  /** No entry lies in the future. */
  predicate Past(es: Entries, now: int) {
    es == [] || (es[0].value.fetchedAt <= now && Past(es[1..], now))
  }

  lemma {:induction false} FreshAfterFresh(es: Entries, t: int, now: int, maxAge: nat)
    requires NotAfter(t, es) && Past(es, now) && now - t <= maxAge
    ensures Prune(es, now, maxAge) == es
  {
    if es != [] {
      FreshAfterFresh(es[1..], t, now, maxAge);
    }
  }

  /** On entries in time order pruning removes a beginning, and only stale keys. */
  lemma {:induction false} PruneTracks(es: Entries, h: Entries, now: int, maxAge: nat, key: Key)
    requires Distinct(es) && Tracks(es, h) && Sorted(es) && Past(es, now)
    ensures var es' := Prune(es, now, maxAge);
      && Distinct(es') && Tracks(es', h) && Sorted(es') && Past(es', now) && |es'| <= |es|
      && (key in Keys(es) && key !in Keys(es') ==>
            Latest(h, key).Some? && now - Latest(h, key).value.fetchedAt > maxAge)
  {
    if es != [] {
      if Fresh(es[0].value, now, maxAge) {
        FreshAfterFresh(es[1..], es[0].value.fetchedAt, now, maxAge);
        assert [es[0]] + es[1..] == es;
      } else {
        PruneTracks(es[1..], h, now, maxAge, key);
      }
    }
  }

  lemma {:induction false} WithoutSorted(es: Entries, key: Key, t: int, now: int)
    requires Sorted(es) && Past(es, now)
    ensures Sorted(Without(es, key)) && Past(Without(es, key), now)
    ensures NotAfter(t, es) ==> NotAfter(t, Without(es, key))
  {
    if es != [] {
      WithoutSorted(es[1..], key, t, now);
      if es[0].key != key {
        WithoutSorted(es[1..], key, es[0].value.fetchedAt, now);
      }
    }
  }

  lemma {:induction false} AppendSorted(es: Entries, e: Entry<Key, Stored>, t: int)
    requires Sorted(es) && Past(es, e.value.fetchedAt)
    ensures Sorted(es + [e]) && Past(es + [e], e.value.fetchedAt)
    ensures NotAfter(t, es) && t <= e.value.fetchedAt ==> NotAfter(t, es + [e])
  {
    if es != [] {
      AppendSorted(es[1..], e, t);
      AppendSorted(es[1..], e, es[0].value.fetchedAt);
      assert (es + [e])[1..] == es[1..] + [e];
    }
  }

  lemma {:induction false} NewestSorted(es: Entries, bound: nat, now: int)
    requires Sorted(es) && Past(es, now)
    ensures Sorted(Newest(es, bound)) && Past(Newest(es, bound), now)
  {
    if |es| > bound {
      NewestSorted(es[1..], bound, now);
    }
  }

  lemma {:induction false} PastLater(es: Entries, now: int, later: int)
    requires Past(es, now) && now <= later
    ensures Past(es, later)
  {
    if es != [] {
      PastLater(es[1..], now, later);
    }
  }

  /** The state a history leaves: in step with it, in time order, missing only what is due to be missing. */
  ghost predicate InStep(es: Entries, h: Entries, now: int, maxAge: nat, key: Key) {
    && Distinct(es) && Tracks(es, h) && Sorted(es) && Past(es, now) && |es| <= MAX_ENTRIES
    && (Latest(h, key).Some? && key !in Keys(es) ==>
          |Since(h, key)| >= MAX_ENTRIES || now - Latest(h, key).value.fetchedAt > maxAge)
  }

  lemma {:induction false} RememberKeepsStep(es: Entries, h: Entries, e: Entry<Key, Stored>, before: int, maxAge: nat,
          key: Key)
    requires InStep(es, h, before, maxAge, key) && before <= e.value.fetchedAt
    ensures InStep(Remembered(es, e, e.value.fetchedAt, maxAge), h + [e], e.value.fetchedAt, maxAge, key)
  {
    var now := e.value.fetchedAt;
    PastLater(es, before, now);
    WithoutSorted(es, e.key, now, now);
    AppendSorted(Without(es, e.key), e, now);
    AppendTracks(es, h, e);
    var full := Without(es, e.key) + [e];
    PruneTracks(full, h + [e], now, maxAge, key);
    var pruned := Prune(full, now, maxAge);
    NewestTracks(pruned, h + [e], MAX_ENTRIES, key);
    NewestSorted(pruned, MAX_ENTRIES, now);
    SinceSnoc(h, e, key);
    if key != e.key {
      SubsetSize(Since(h, key), Since(h + [e], key));
    }
  }

  lemma {:induction false} CachedIsInStep(h: Entries, now: int, maxAge: nat, key: Key)
    requires Monotone(h) && NotBefore(h, now)
    ensures InStep(Cached(h, maxAge), h, now, maxAge, key)
  {
    if h != [] {
      var init, e := h[..|h| - 1], h[|h| - 1];
      assert init + [e] == h;
      CachedIsInStep(init, e.value.fetchedAt, maxAge, key);
      RememberKeepsStep(Cached(init, maxAge), init, e, e.value.fetchedAt, maxAge, key);
      PastLater(Cached(h, maxAge), e.value.fetchedAt, now);
    }
  }

  /**
   * The cache agrees with history: a lookup gives the latest remembered catalog of its key exactly
   * while it is young enough and at most seven other keys were remembered since.
   */
  lemma {:induction false} LookupAgrees(h: Entries, key: Key, now: int, maxAge: nat)
    requires Monotone(h) && NotBefore(h, now)
    ensures Looked(Cached(h, maxAge), key, now, maxAge) == Expected(h, key, now, maxAge)
    ensures |Cached(h, maxAge)| <= MAX_ENTRIES
  {
    CachedIsInStep(h, now, maxAge, key);
    FindTracked(Cached(h, maxAge), h, key);
    LatestWasStored(h, key);
  }

  /** The keys of some entries. */
  function KeysOf(es: Entries): set<Key> {
    set i | 0 <= i < |es| :: es[i].key
  }

  lemma {:induction false} KeysSnoc(es: Entries, e: Entry<Key, Stored>)
    ensures KeysOf(es + [e]) == KeysOf(es) + {e.key}
  {
    forall k | k in KeysOf(es) + {e.key}
      ensures k in KeysOf(es + [e])
    {
      if k == e.key {
        assert (es + [e])[|es|].key == k;
      } else {
        var i :| 0 <= i < |es| && es[i].key == k;
        assert (es + [e])[i].key == k;
      }
    }
  }

  lemma {:induction false} LatestIs(h: Entries, e: Entry<Key, Stored>, later: Entries)
    requires forall i :: 0 <= i < |later| ==> later[i].key != e.key
    ensures Latest(h + [e] + later, e.key) == Some(e.value) && Since(h + [e] + later, e.key) == KeysOf(later)
  {
    hide KeysOf, Latest, Since;
    if later == [] {
      assert h + [e] + later == h + [e];
      SinceSnoc(h, e, e.key);
      NoKeys();
    } else {
      var init, last := later[..|later| - 1], later[|later| - 1];
      LatestIs(h, e, init);
      assert h + [e] + later == (h + [e] + init) + [last];
      SinceSnoc(h + [e] + init, last, e.key);
      assert later == init + [last];
      KeysSnoc(init, last);
    }
  }

  lemma {:induction false} NoKeys()
    ensures KeysOf([]) == {}
  {
  }

  /**
   * A remembered catalog is served as it was: with its time, its age in whole seconds, and its etag unless that was
   * empty or longer than 512 characters; for as long as it is young enough and fewer than eight other keys were
   * remembered since.
   */
  lemma {:induction false} ServedAsRemembered(h: Entries, key: Key, catalog: string, etag: Option<string>, at: int,
          later: Entries, now: int, maxAge: nat)
    requires var all := h + [Entry(key, Stored(catalog, KeepEtag(etag), at))] + later;
      Monotone(all) && NotBefore(all, now)
    requires forall i :: 0 <= i < |later| ==> later[i].key != key
    ensures var all := h + [Entry(key, Stored(catalog, KeepEtag(etag), at))] + later;
      var found := Looked(Cached(all, maxAge), key, now, maxAge);
      && (found.Some? <==> now - at <= maxAge && |KeysOf(later)| < 8)
      && (found.Some? ==>
            && found.value.catalog == catalog && found.value.fetchedAt == at
            && 0 <= now - at - 1000 * found.value.ageSec < 1000
            && (etag.Some? && 1 <= |etag.value| <= 512 ==> found.value.etag == etag)
            && (etag.None? || etag.value == "" || |etag.value| > 512 ==> found.value.etag.None?))
  {
    hide Monotone, NotBefore;
    var e := Entry(key, Stored(catalog, KeepEtag(etag), at));
    LookupAgrees(h + [e] + later, key, now, maxAge);
    LatestIs(h, e, later);
    StampedBefore(h + [e] + later, |h|, now);
    assert (h + [e] + later)[|h|] == e;
  }

  lemma {:induction false} StampedBefore(h: Entries, i: nat, now: int)
    requires i < |h| && NotBefore(h, now)
    ensures h[i].value.fetchedAt <= now
  {
  }

  class LastGood {
    const maxAge: nat
    var entries: Entries
    ghost var history: Entries

    ghost predicate Valid()
      reads this
    {
      entries == Cached(history, maxAge)
    }

    constructor (maxAge: nat)
      ensures Valid() && this.maxAge == maxAge && history == []
    {
      this.maxAge := maxAge;
      entries, history := [], [];
    }

    /** Store the newest catalog of a key, drop stale entries, then the oldest beyond the bound. */
    method Remember(key: Key, catalog: string, etag: Option<string>, now: int)
      requires Valid()
      modifies this
      ensures Valid()
      ensures history == old(history) + [Entry(key, Stored(catalog, KeepEtag(etag), now))]
      ensures |entries| <= MAX_ENTRIES
    {
      var entry := Entry(key, Stored(catalog, KeepEtag(etag), now));
      var all := DeleteKey(key);
      all := all + [entry];
      entries := [];
      var i := 0;
      while i < |all|
        invariant i <= |all|
        invariant entries + Prune(all[i..], now, maxAge) == Prune(all, now, maxAge)
        invariant history == old(history)
      {
        assert all[i..][1..] == all[i + 1..];
        if Fresh(all[i].value, now, maxAge) {
          entries := entries + [all[i]];
        }
        i := i + 1;
      }
      assert all[|all|..] == [];
      assert entries == Prune(all, now, maxAge);
      while |entries| > MAX_ENTRIES
        invariant Newest(entries, MAX_ENTRIES) == Newest(Prune(all, now, maxAge), MAX_ENTRIES)
        invariant history == old(history)
        decreases |entries|
      {
        entries := entries[1..];
      }
      history := history + [entry];
      assert history[..|history| - 1] == old(history);
    }

    /** Removing a key leaves the other entries in order. */
    method DeleteKey(key: Key) returns (kept: Entries)
      ensures kept == Without(entries, key)
    {
      kept := [];
      var i := 0;
      while i < |entries|
        invariant i <= |entries|
        invariant kept + Without(entries[i..], key) == Without(entries, key)
      {
        assert entries[i..][1..] == entries[i + 1..];
        if entries[i].key != key {
          kept := kept + [entries[i]];
        }
        i := i + 1;
      }
    }

    method Lookup(key: Key, now: int) returns (found: Option<Snapshot>)
      requires Valid()
      ensures Monotone(history) && NotBefore(history, now) ==> found == Expected(history, key, now, maxAge)
      ensures found.Some? ==> 0 <= now - found.value.fetchedAt <= maxAge
    {
      ghost var monotone := Monotone(history) && NotBefore(history, now);
      if monotone {
        LookupAgrees(history, key, now, maxAge);
      }
      var entry := Find(entries, key);
      if entry.None? || !Fresh(entry.value, now, maxAge) {
        return None;
      }
      return Some(SnapshotAt(entry.value, now));
    }
  }
}
