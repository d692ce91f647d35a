/**
 * The background worker's `pageContexts` store: a JavaScript Map from a key
 * ("current_tab", a page url, or "selection_<ms>") to a page snapshot.
 * A Map remembers insertion order: `set` on a present key replaces the value
 * in place, on a new key appends; `delete` removes; `clear` empties. The
 * store is modelled as the Map's entry list in that order, keys distinct.
 */
module ContextStore {
  import opened Basics
  import opened Text
  import opened Types

  datatype Entry = Entry(key: string, page: PageSnapshot)

  /** The singleton slot holding the active tab's snapshot. */
  const CurrentTabKey: string := "current_tab"

  /** How many entries the periodic clean-up keeps. */
  const MaxEntries: nat := 50

  /** The clean-up period, 5 minutes in milliseconds. */
  const CleanupIntervalMs: nat := 300000

  /** The key under which a context-menu selection is stored. */
  function SelectionKey(ms: nat): (k: string)
    ensures StartsWith(k, "selection_")
  {
    "selection_" + NatToString(ms)
  }

  /** Selections captured at different milliseconds get different keys. */
  lemma SelectionKeyInjective(a: nat, b: nat)
    requires a != b
    ensures SelectionKey(a) != SelectionKey(b)
  {
    NatToStringInjective(a, b);
    assert SelectionKey(a)[10..] == NatToString(a);
    assert SelectionKey(b)[10..] == NatToString(b);
  }

  /** A selection never lands in the current-tab slot. */
  lemma SelectionKeyNotCurrentTab(ms: nat)
    ensures SelectionKey(ms) != CurrentTabKey
  {
    assert SelectionKey(ms)[0] == 's' != CurrentTabKey[0];
  }

  ghost predicate KeysDistinct(es: seq<Entry>) {
    forall i, j :: 0 <= i < j < |es| ==> es[i].key != es[j].key
  }

  predicate Defines(es: seq<Entry>, k: string) {
    exists i :: 0 <= i < |es| && es[i].key == k
  }

  /** `map.get(k)`. */
  function Lookup(es: seq<Entry>, k: string): (r: Option<PageSnapshot>)
    ensures r.Some? <==> Defines(es, k)
    ensures r.Some? ==> Entry(k, r.value) in es
    decreases |es|
  {
    if es == [] then None
    else if es[0].key == k then Some(es[0].page)
    else
      assert forall i :: 0 < i < |es| ==> es[1..][i - 1] == es[i];
      Lookup(es[1..], k)
  }

  /** `map.set(k, v)`: replace in place when present, append otherwise. */
  function Put(es: seq<Entry>, k: string, v: PageSnapshot): (r: seq<Entry>)
    ensures !Defines(es, k) ==> r == es + [Entry(k, v)]
    ensures |r| == if Defines(es, k) then |es| else |es| + 1
    ensures forall i :: 0 <= i < |es| ==> r[i].key == es[i].key
    decreases |es|
  {
    if es == [] then [Entry(k, v)]
    else if es[0].key == k then [Entry(k, v)] + es[1..]
    else
      assert forall i :: 0 < i < |es| ==> es[1..][i - 1] == es[i];
      [es[0]] + Put(es[1..], k, v)
  }

  /** After `set(k, v)`, `get(k)` is `v` and every other key reads as before. */
  lemma {:induction false} PutLookup(es: seq<Entry>, k: string, v: PageSnapshot, k': string)
    ensures Lookup(Put(es, k, v), k) == Some(v)
    ensures k' != k ==> Lookup(Put(es, k, v), k') == Lookup(es, k')
    decreases |es|
  {
    if es != [] && es[0].key != k {
      PutLookup(es[1..], k, v, k');
    }
  }

  /** `set` never creates a second entry for a key. */
  lemma {:induction false} PutKeysDistinct(es: seq<Entry>, k: string, v: PageSnapshot)
    requires KeysDistinct(es)
    ensures KeysDistinct(Put(es, k, v))
  {
    var r := Put(es, k, v);
    if Defines(es, k) {
      assert forall i :: 0 <= i < |r| ==> r[i].key == es[i].key;
    } else {
      forall i, j | 0 <= i < j < |r| ensures r[i].key != r[j].key {
        if j == |es| {
          assert r[j].key == k;
          assert r[i].key == es[i].key;
        }
      }
    }
  }

  /** `map.delete(k)`: the other entries keep their order. */
  function Remove(es: seq<Entry>, k: string): (r: seq<Entry>)
    ensures |r| <= |es|
    ensures forall i :: 0 <= i < |r| ==> r[i] in es && r[i].key != k
    ensures !Defines(es, k) ==> r == es
    decreases |es|
  {
    if es == [] then []
    else
      assert forall i :: 0 < i < |es| ==> es[1..][i - 1] == es[i];
      if es[0].key == k then Remove(es[1..], k)
      else [es[0]] + Remove(es[1..], k)
  }

  /** The entries `map.delete(k)` keeps. */
  function KeyIsNot(k: string): Entry -> bool {
    (e: Entry) => e.key != k
  }

  /** `Remove` keeps exactly the entries with other keys, in their Map order. */
  lemma {:induction false} RemoveIsFilter(es: seq<Entry>, k: string)
    ensures Remove(es, k) == Filter(es, KeyIsNot(k))
    decreases |es|
  {
    if es != [] {
      RemoveIsFilter(es[1..], k);
    }
  }

  /** Deleting from a concatenation deletes from each part: the survivors keep their relative order. */
  lemma RemoveAppend(a: seq<Entry>, b: seq<Entry>, k: string)
    ensures Remove(a + b, k) == Remove(a, k) + Remove(b, k)
  {
    RemoveIsFilter(a + b, k);
    RemoveIsFilter(a, k);
    RemoveIsFilter(b, k);
    FilterAppend(a, b, KeyIsNot(k));
  }

  /** After `delete(k)`, `get(k)` is undefined and every other key reads as before. */
  lemma {:induction false} RemoveLookup(es: seq<Entry>, k: string, k': string)
    ensures Lookup(Remove(es, k), k) == None
    ensures k' != k ==> Lookup(Remove(es, k), k') == Lookup(es, k')
    decreases |es|
  {
    if es != [] {
      RemoveLookup(es[1..], k, k');
    }
  }

  /** `delete` keeps the keys distinct. */
  lemma {:induction false} RemoveKeysDistinct(es: seq<Entry>, k: string)
    requires KeysDistinct(es)
    ensures KeysDistinct(Remove(es, k))
    decreases |es|
  {
    if es != [] {
      var rest := Remove(es[1..], k);
      RemoveKeysDistinct(es[1..], k);
      forall i | 0 <= i < |rest| ensures rest[i].key != es[0].key {
        var j :| 0 <= j < |es[1..]| && es[1..][j] == rest[i];
        assert es[j + 1] == rest[i];
      }
    }
  }

  /** `Array.from(map.values())`. */
  function Values(es: seq<Entry>): (r: seq<PageSnapshot>)
    ensures |r| == |es| && forall i :: 0 <= i < |es| ==> r[i] == es[i].page
  {
    if es == [] then [] else [es[0].page] + Values(es[1..])
  }

  /**
   * The sort key of the clean-up: `(a, b) => b[1].timestamp - a[1].timestamp`
   * orders newest first, i.e. ascending by the negated timestamp.
   */
  function Recency(e: Entry): int {
    -e.page.timestamp
  }

  /** The entries ordered newest first, ties in Map order (a stable sort). */
  function ByRecency(es: seq<Entry>): (r: seq<Entry>)
    ensures multiset(r) == multiset(es) && |r| == |es|
  {
    SortBy(es, Recency)
  }

  /**
   * The clean-up: a Map with more than 50 entries is rebuilt from the 50
   * newest, newest first; a smaller one is left alone.
   */
  function Evicted(es: seq<Entry>): (r: seq<Entry>)
    ensures |r| == if |es| <= MaxEntries then |es| else MaxEntries
    ensures multiset(r) <= multiset(es)
    ensures |es| <= MaxEntries ==> r == es
  {
    if |es| <= MaxEntries then es
    else
      var s := ByRecency(es);
      TakeMultiset(s, MaxEntries);
      s[..MaxEntries]
  }

  /**
   * No entry dropped by the clean-up is newer than any entry it keeps.
   */
  lemma EvictedKeepsNewest(es: seq<Entry>)
    requires |es| > MaxEntries
    ensures forall e: Entry, d: Entry :: e in Evicted(es) && d in multiset(es) - multiset(Evicted(es))
              ==> d.page.timestamp <= e.page.timestamp
  {
    var kept := Evicted(es);
    assert kept == SortBy(es, Recency)[..MaxEntries];
    SortedPrefixLeast(es, Recency, MaxEntries);
    forall e: Entry, d: Entry | e in kept && d in multiset(es) - multiset(kept)
      ensures d.page.timestamp <= e.page.timestamp
    {
      assert Recency(e) <= Recency(d);
    }
  }

  /** The kept entries are ordered newest first. */
  lemma EvictedNewestFirst(es: seq<Entry>)
    requires |es| > MaxEntries
    ensures forall i, j :: 0 <= i < j < |Evicted(es)| ==>
              Evicted(es)[i].page.timestamp >= Evicted(es)[j].page.timestamp
  {
    SortBySorted(es, Recency);
  }

  /**
   * Ties are kept in prior Map order: of the entries sharing one sort key
   * `r` (those with timestamp `-r`), the kept ones are a prefix of the
   * original ones.
   */
  lemma EvictedKeepsTieOrder(es: seq<Entry>, r: int)
    requires |es| > MaxEntries
    ensures Filter(Evicted(es), HasKey(Recency, r)) <= Filter(es, HasKey(Recency, r))
  {
    SortedPrefixStable(es, Recency, r, MaxEntries);
  }

  lemma {:induction false} InsertKeepsKeysDistinct(x: Entry, s: seq<Entry>)
    requires KeysDistinct(s)
    requires forall i :: 0 <= i < |s| ==> s[i].key != x.key
    ensures KeysDistinct(InsertBy(x, s, Recency))
    decreases |s|
  {
    if s == [] || Recency(x) <= Recency(s[0]) {
    } else {
      var t := InsertBy(x, s[1..], Recency);
      InsertKeepsKeysDistinct(x, s[1..]);
      assert InsertBy(x, s, Recency) == [s[0]] + t;
      forall j | 0 <= j < |t| ensures t[j].key != s[0].key {
        assert t[j] in multiset(s[1..]) + multiset{x};
        if t[j] in multiset(s[1..]) {
          var k :| 0 <= k < |s[1..]| && s[1..][k] == t[j];
          assert s[k + 1] == t[j];
        }
      }
    }
  }

  lemma {:induction false} SortKeepsKeysDistinct(es: seq<Entry>)
    requires KeysDistinct(es)
    ensures KeysDistinct(ByRecency(es))
    decreases |es|
  {
    if es != [] {
      var rest := SortBy(es[1..], Recency);
      SortKeepsKeysDistinct(es[1..]);
      forall i | 0 <= i < |rest| ensures rest[i].key != es[0].key {
        assert rest[i] in multiset(es[1..]);
        var k :| 0 <= k < |es[1..]| && es[1..][k] == rest[i];
        assert es[k + 1] == rest[i];
      }
      InsertKeepsKeysDistinct(es[0], rest);
    }
  }

  /** The clean-up never produces two entries with one key. */
  lemma EvictedKeysDistinct(es: seq<Entry>)
    requires KeysDistinct(es)
    ensures KeysDistinct(Evicted(es))
  {
    if |es| > MaxEntries {
      SortKeepsKeysDistinct(es);
    }
  }

  lemma PrefixLacksNextKey(es: seq<Entry>, i: nat)
    requires KeysDistinct(es) && i < |es|
    ensures !Defines(es[..i], es[i].key)
  {
  }

  /** The `pageContexts` Map object. */
  class Store {
    var entries: seq<Entry>

    ghost predicate Valid()
      reads this
    {
      KeysDistinct(entries)
    }

    constructor ()
      ensures Valid() && entries == []
    {
      entries := [];
    }

    function Get(key: string): Option<PageSnapshot>
      reads this
    {
      Lookup(entries, key)
    }

    function AllValues(): seq<PageSnapshot>
      reads this
    {
      Values(entries)
    }

    /** `pageContexts.set(key, page)`. */
    method Set(key: string, page: PageSnapshot)
      requires Valid()
      modifies this
      ensures Valid() && entries == Put(old(entries), key, page)
    {
      PutKeysDistinct(entries, key, page);
      entries := Put(entries, key, page);
    }

    /** `pageContexts.delete(key)`. */
    method Delete(key: string)
      requires Valid()
      modifies this
      ensures Valid() && entries == Remove(old(entries), key)
    {
      RemoveKeysDistinct(entries, key);
      entries := Remove(entries, key);
    }

    /** `pageContexts.clear()`. */
    method Clear()
      modifies this
      ensures Valid() && entries == []
    {
      entries := [];
    }

    /**
     * The body of the five-minute clean-up interval: sort the entries newest
     * first, clear the Map and re-insert the first 50 one by one.
     */
    method EvictOldest()
      requires Valid()
      modifies this
      ensures Valid() && entries == Evicted(old(entries))
    {
      if |entries| > MaxEntries {
        var sorted := ByRecency(entries);
        SortKeepsKeysDistinct(entries);
        Clear();
        var i := 0;
        while i < MaxEntries
          invariant 0 <= i <= MaxEntries
          invariant entries == sorted[..i]
          invariant Valid()
        {
          PrefixLacksNextKey(sorted, i);
          Set(sorted[i].key, sorted[i].page);
          assert sorted[..i] + [Entry(sorted[i].key, sorted[i].page)] == sorted[..i + 1];
          i := i + 1;
        }
      }
    }
  }
}
