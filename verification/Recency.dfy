/**
 * An insertion-ordered map used as a bounded memory: storing a key moves it to the end, and the oldest
 * keys leave when there are too many. What it holds is a function of the history of stores.
 */
module Recency {
  import opened Common

  /** One stored pair; both a memory and a history list them oldest first. */
  datatype Entry<K, V> = Entry(key: K, value: V)

  function Keys<K, V>(es: seq<Entry<K, V>>): set<K> {
    if es == [] then {} else {es[0].key} + Keys(es[1..])
  }

  predicate Distinct<K(==), V>(es: seq<Entry<K, V>>) {
    es == [] || (es[0].key !in Keys(es[1..]) && Distinct(es[1..]))
  }

  /** `delete` of an insertion-ordered map: the other entries keep their order. */
  function Without<K(==), V>(es: seq<Entry<K, V>>, key: K): seq<Entry<K, V>> {
    if es == [] then []
    else if es[0].key == key then Without(es[1..], key)
    else [es[0]] + Without(es[1..], key)
  }

  /** Drop the oldest entries beyond the bound. */
  function Newest<K, V>(es: seq<Entry<K, V>>, bound: nat): seq<Entry<K, V>> {
    if |es| > bound then Newest(es[1..], bound) else es
  }

  /** `delete`, `set`, then evict from the front. */
  function Store<K(==), V>(es: seq<Entry<K, V>>, e: Entry<K, V>, bound: nat): seq<Entry<K, V>> {
    Newest(Without(es, e.key) + [e], bound)
  }

  function Find<K(==), V>(es: seq<Entry<K, V>>, key: K): Option<V> {
    if es == [] then None
    else if es[0].key == key then Some(es[0].value)
    else Find(es[1..], key)
  }

  // ---- History ----

  /** The value of the latest store of a key. */
  function Latest<K(==), V>(h: seq<Entry<K, V>>, key: K): Option<V> {
    if h == [] then None
    else if h[|h| - 1].key == key then Some(h[|h| - 1].value)
    else Latest(h[..|h| - 1], key)
  }

  /** The distinct other keys stored after the latest store of a key. */
  function Since<K(==), V>(h: seq<Entry<K, V>>, key: K): set<K> {
    if h == [] || h[|h| - 1].key == key then {}
    else Since(h[..|h| - 1], key) + {h[|h| - 1].key}
  }

  /** Each entry holds the latest value of its key, and the entries after it are the keys stored since. */
  predicate Tracks<K(==), V(==)>(es: seq<Entry<K, V>>, h: seq<Entry<K, V>>) {
    es == [] ||
    (Latest(h, es[0].key) == Some(es[0].value) && Since(h, es[0].key) == Keys(es[1..]) && Tracks(es[1..], h))
  }

  lemma {:induction false} SinceSnoc<K, V>(h: seq<Entry<K, V>>, e: Entry<K, V>, key: K)
    ensures Since(h + [e], key) == (if e.key == key then {} else Since(h, key) + {e.key})
    ensures Latest(h + [e], key) == (if e.key == key then Some(e.value) else Latest(h, key))
  {
    assert (h + [e])[..|h|] == h;
  }

  /** Moving a key to the end keeps the entries in step with the longer history. */
  lemma {:induction false} AppendTracks<K, V>(es: seq<Entry<K, V>>, h: seq<Entry<K, V>>, e: Entry<K, V>)
    requires Distinct(es) && Tracks(es, h)
    ensures var es' := Without(es, e.key) + [e];
      && Distinct(es') && Tracks(es', h + [e]) && Keys(es') == Keys(es) + {e.key} && |es'| <= |es| + 1
  {
    SinceSnoc(h, e, e.key);
    if es != [] {
      AppendTracks(es[1..], h, e);
      if es[0].key != e.key {
        SinceSnoc(h, e, es[0].key);
        var rest := Without(es[1..], e.key) + [e];
        assert Without(es, e.key) + [e] == [es[0]] + rest;
        assert ([es[0]] + rest)[1..] == rest;
      }
    }
  }

  lemma {:induction false} DistinctCount<K, V>(es: seq<Entry<K, V>>)
    requires Distinct(es)
    ensures |Keys(es)| == |es|
  {
    if es != [] {
      DistinctCount(es[1..]);
    }
  }

  /** Eviction only takes keys that `bound` others have followed. */
  lemma {:induction false} NewestTracks<K, V>(es: seq<Entry<K, V>>, h: seq<Entry<K, V>>, bound: nat, key: K)
    requires Distinct(es) && Tracks(es, h)
    ensures var es' := Newest(es, bound);
      && Distinct(es') && Tracks(es', h) && |es'| <= bound && Keys(es') <= Keys(es)
      && (key in Keys(es) && key !in Keys(es') ==> |Since(h, key)| >= bound)
  {
    if |es| > bound {
      NewestTracks(es[1..], h, bound, key);
      DistinctCount(es[1..]);
    }
  }

  lemma {:induction false} LatestWasStored<K, V>(h: seq<Entry<K, V>>, key: K)
    ensures Latest(h, key).Some? ==> exists i :: 0 <= i < |h| && h[i] == Entry(key, Latest(h, key).value)
    ensures Latest(h, key).None? ==> forall i :: 0 <= i < |h| ==> h[i].key != key
  {
    if h != [] && h[|h| - 1].key != key {
      LatestWasStored(h[..|h| - 1], key);
      assert forall i :: 0 <= i < |h| - 1 ==> h[..|h| - 1][i] == h[i];
    }
  }

  lemma {:induction false} FindTracked<K, V>(es: seq<Entry<K, V>>, h: seq<Entry<K, V>>, key: K)
    requires Distinct(es) && Tracks(es, h)
    ensures key in Keys(es) ==> Find(es, key) == Latest(h, key) && |Since(h, key)| < |es|
    ensures key !in Keys(es) ==> Find(es, key) == None
  {
    if es != [] {
      if es[0].key == key {
        DistinctCount(es[1..]);
      } else {
        FindTracked(es[1..], h, key);
      }
    }
  }

  /** The memory after a history of stores, with nothing but the size bound to forget by. */
  function Memory<K(==), V>(h: seq<Entry<K, V>>, bound: nat): seq<Entry<K, V>> {
    if h == [] then [] else Store(Memory(h[..|h| - 1], bound), h[|h| - 1], bound)
  }

  lemma {:induction false} MemoryTracks<K, V>(h: seq<Entry<K, V>>, bound: nat, key: K)
    ensures var es := Memory(h, bound);
      && Distinct(es) && Tracks(es, h) && |es| <= bound
      && (Latest(h, key).Some? && key !in Keys(es) ==> |Since(h, key)| >= bound)
  {
    if h != [] {
      var init, e := h[..|h| - 1], h[|h| - 1];
      assert init + [e] == h;
      MemoryTracks(init, bound, key);
      AppendTracks(Memory(init, bound), init, e);
      SinceSnoc(init, e, key);
      NewestTracks(Without(Memory(init, bound), e.key) + [e], h, bound, key);
      if key != e.key && key !in Keys(Memory(init, bound)) {
        SubsetSize(Since(init, key), Since(h, key));
      }
    }
  }

  lemma {:induction false} SubsetSize<T>(a: set<T>, b: set<T>)
    requires a <= b
    ensures |a| <= |b|
  {
    assert b == a + (b - a);
  }

  /** A lookup sees the latest store exactly while fewer than `bound` other keys were stored since. */
  lemma {:induction false} LookupAgreesWithHistory<K, V>(h: seq<Entry<K, V>>, bound: nat, key: K)
    ensures Find(Memory(h, bound), key) == if |Since(h, key)| < bound then Latest(h, key) else None
    ensures |Memory(h, bound)| <= bound
  {
    MemoryTracks(h, bound, key);
    FindTracked(Memory(h, bound), h, key);
  }
}
