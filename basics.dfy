/**
 * Sequence helpers shared by the whole model: an Option type, JavaScript's
 * Array.prototype.filter, the stable Array.prototype.sort (stable since
 * ECMAScript 2019) and Array.prototype.slice(-n).
 */
module Basics {

  datatype Option<+T> = None | Some(value: T) {
    function GetOr(default: T): T {
      if Some? then value else default
    }
  }

  /** The elements of `s` that satisfy `p`, in their original order. */
  function Filter<T>(s: seq<T>, p: T -> bool): (r: seq<T>)
    ensures |r| <= |s|
    ensures forall i :: 0 <= i < |r| ==> r[i] in s && p(r[i])
    ensures forall i :: 0 <= i < |s| && p(s[i]) ==> s[i] in r
    decreases |s|
  {
    if s == [] then [] else (if p(s[0]) then [s[0]] else []) + Filter(s[1..], p)
  }

  /** Filtering distributes over concatenation: the result is an ordered subsequence. */
  lemma {:induction false} FilterAppend<T>(a: seq<T>, b: seq<T>, p: T -> bool)
    ensures Filter(a + b, p) == Filter(a, p) + Filter(b, p)
    decreases |a|
  {
    if a == [] {
      assert a + b == b;
    } else {
      assert (a + b)[0] == a[0];
      assert (a + b)[1..] == a[1..] + b;
      FilterAppend(a[1..], b, p);
    }
  }

  /** Filtering with a predicate that every element satisfies changes nothing. */
  lemma {:induction false} FilterAll<T>(s: seq<T>, p: T -> bool)
    requires forall i :: 0 <= i < |s| ==> p(s[i])
    ensures Filter(s, p) == s
    decreases |s|
  {
    if s != [] {
      FilterAll(s[1..], p);
    }
  }

  /** Filtering with a predicate that no element satisfies leaves nothing. */
  lemma {:induction false} FilterNone<T>(s: seq<T>, p: T -> bool)
    requires forall i :: 0 <= i < |s| ==> !p(s[i])
    ensures Filter(s, p) == []
    decreases |s|
  {
    if s != [] {
      FilterNone(s[1..], p);
    }
  }

  /** Number of elements of `s` that satisfy `p`. */
  function CountIf<T>(s: seq<T>, p: T -> bool): nat {
    |Filter(s, p)|
  }

  /** Filtering around one element. */
  lemma FilterAround<T>(a: seq<T>, x: T, b: seq<T>, p: T -> bool)
    ensures Filter(a + [x] + b, p) == Filter(a, p) + (if p(x) then [x] else []) + Filter(b, p)
  {
    FilterAppend(a + [x], b, p);
    FilterAppend(a, [x], p);
    FilterSingleton(x, p);
  }

  lemma CountSingle<T>(x: T, p: T -> bool)
    ensures CountIf([x], p) == if p(x) then 1 else 0
  {
    FilterSingleton(x, p);
  }

  lemma CountAppend<T>(a: seq<T>, b: seq<T>, p: T -> bool)
    ensures CountIf(a + b, p) == CountIf(a, p) + CountIf(b, p)
  {
    FilterAppend(a, b, p);
  }

  /**
   * Inserts `x` in front of the first element whose key is not smaller, so
   * that among equal keys the element inserted last comes first.
   */
  function InsertBy<T>(x: T, s: seq<T>, key: T -> int): (r: seq<T>)
    ensures multiset(r) == multiset(s) + multiset{x}
    ensures |r| == |s| + 1
    ensures r[0] == x || (s != [] && r[0] == s[0])
    decreases |s|
  {
    if s == [] || key(x) <= key(s[0]) then [x] + s
    else
      assert s == [s[0]] + s[1..];
      [s[0]] + InsertBy(x, s[1..], key)
  }

  /** Stable ascending sort of `s` by `key` (insertion sort). */
  function SortBy<T>(s: seq<T>, key: T -> int): (r: seq<T>)
    ensures multiset(r) == multiset(s)
    ensures |r| == |s|
    decreases |s|
  {
    if s == [] then []
    else
      assert s == [s[0]] + s[1..];
      InsertBy(s[0], SortBy(s[1..], key), key)
  }

  ghost predicate SortedBy<T>(s: seq<T>, key: T -> int) {
    forall i, j :: 0 <= i < j < |s| ==> key(s[i]) <= key(s[j])
  }

  /** The head of an ascending sequence has the least key. */
  lemma SortedHeadLeast<T>(s: seq<T>, key: T -> int)
    requires SortedBy(s, key) && s != []
    ensures forall y :: y in s ==> key(s[0]) <= key(y)
  {
    forall y | y in s ensures key(s[0]) <= key(y) {
      var k :| 0 <= k < |s| && s[k] == y;
    }
  }

  /** An element no greater than all of an ascending sequence can go in front. */
  lemma SortedCons<T>(h: T, t: seq<T>, key: T -> int)
    requires SortedBy(t, key)
    requires forall y :: y in t ==> key(h) <= key(y)
    ensures SortedBy([h] + t, key)
  {
    var r := [h] + t;
    forall i, j | 0 <= i < j < |r| ensures key(r[i]) <= key(r[j]) {
      assert r[j] == t[j - 1];
      if i > 0 {
        assert r[i] == t[i - 1];
      }
    }
  }

  lemma {:induction false} InsertBySorted<T>(x: T, s: seq<T>, key: T -> int)
    requires SortedBy(s, key)
    ensures SortedBy(InsertBy(x, s, key), key)
    decreases |s|
  {
    if s == [] || key(x) <= key(s[0]) {
      if s != [] {
        SortedHeadLeast(s, key);
        SortedCons(x, s, key);
      }
    } else {
      var t := InsertBy(x, s[1..], key);
      InsertBySorted(x, s[1..], key);
      SortedHeadLeast(s, key);
      forall y | y in t ensures key(s[0]) <= key(y) {
        assert y in multiset(t);
        if y != x {
          assert y in multiset(s[1..]);
          assert y in s;
        }
      }
      SortedCons(s[0], t, key);
    }
  }

  /** The sort produces an ascending sequence. */
  lemma {:induction false} SortBySorted<T>(s: seq<T>, key: T -> int)
    ensures SortedBy(SortBy(s, key), key)
    decreases |s|
  {
    if s != [] {
      SortBySorted(s[1..], key);
      InsertBySorted(s[0], SortBy(s[1..], key), key);
    }
  }

  /** The predicate "has key v". */
  function HasKey<T, K(==)>(key: T -> K, v: K): T -> bool {
    x => key(x) == v
  }

  /** Filtering a one-element sequence. */
  lemma FilterSingleton<T>(x: T, p: T -> bool)
    ensures Filter([x], p) == if p(x) then [x] else []
  {
  }

  lemma AppendAssoc<T>(a: seq<T>, b: seq<T>, c: seq<T>)
    ensures (a + b) + c == a + (b + c)
  {
  }

  lemma PrefixOfAppend<T>(a: seq<T>, b: seq<T>)
    ensures a <= a + b
  {
  }

  lemma TakeMultiset<T>(s: seq<T>, n: nat)
    requires n <= |s|
    ensures multiset(s[..n]) <= multiset(s)
  {
    assert s == s[..n] + s[n..];
  }

  lemma TakeLeavesDrop<T>(s: seq<T>, n: nat)
    requires n <= |s|
    ensures multiset(s) - multiset(s[..n]) == multiset(s[n..])
  {
    assert s == s[..n] + s[n..];
  }

  /** Filtering a prefix gives a prefix of the filtered whole. */
  lemma FilterTake<T>(s: seq<T>, n: nat, p: T -> bool)
    requires n <= |s|
    ensures Filter(s[..n], p) <= Filter(s, p)
  {
    assert s == s[..n] + s[n..];
    FilterAppend(s[..n], s[n..], p);
    PrefixOfAppend(Filter(s[..n], p), Filter(s[n..], p));
  }

  lemma SwapEmpty<T>(a: seq<T>, b: seq<T>, c: seq<T>)
    requires a == [] || b == []
    ensures a + (b + c) == b + (a + c)
  {
  }

  lemma {:induction false} InsertByStable<T>(x: T, s: seq<T>, key: T -> int, v: int)
    ensures Filter(InsertBy(x, s, key), HasKey(key, v))
         == (if key(x) == v then [x] else []) + Filter(s, HasKey(key, v))
    decreases |s|
  {
    var p := HasKey(key, v);
    FilterSingleton(x, p);
    if s == [] || key(x) <= key(s[0]) {
      FilterAppend([x], s, p);
    } else {
      var rest := InsertBy(x, s[1..], key);
      var own := if key(x) == v then [x] else [];
      var head := if key(s[0]) == v then [s[0]] else [];
      FilterSingleton(s[0], p);
      assert head == [] || own == [];
      calc {
        Filter(InsertBy(x, s, key), p);
        Filter([s[0]] + rest, p);
        { FilterAppend([s[0]], rest, p); }
        head + Filter(rest, p);
        { InsertByStable(x, s[1..], key, v); }
        head + (own + Filter(s[1..], p));
        { SwapEmpty(head, own, Filter(s[1..], p)); }
        own + (head + Filter(s[1..], p));
        { FilterAppend([s[0]], s[1..], p); assert [s[0]] + s[1..] == s; }
        own + Filter(s, p);
      }
    }
  }

  /**
   * Stability: the elements sharing any one key keep their relative order,
   * so ties are broken by the original position.
   */
  lemma {:induction false} SortByStable<T>(s: seq<T>, key: T -> int, v: int)
    ensures Filter(SortBy(s, key), HasKey(key, v)) == Filter(s, HasKey(key, v))
    decreases |s|
  {
    if s != [] {
      SortByStable(s[1..], key, v);
      InsertByStable(s[0], SortBy(s[1..], key), key, v);
      FilterAppend([s[0]], s[1..], HasKey(key, v));
      assert [s[0]] + s[1..] == s;
    }
  }

  /**
   * The first `n` elements of the stable sort hold, of the elements with one
   * key, a prefix of those elements in their original order.
   */
  lemma SortedPrefixStable<T>(s: seq<T>, key: T -> int, v: int, n: nat)
    requires n <= |s|
    ensures Filter(SortBy(s, key)[..n], HasKey(key, v)) <= Filter(s, HasKey(key, v))
  {
    SortByStable(s, key, v);
    FilterTake(SortBy(s, key), n, HasKey(key, v));
  }

  /** In a sorted sequence, the first `n` elements have the smallest keys. */
  lemma SortedSplit<T>(r: seq<T>, key: T -> int, n: nat)
    requires SortedBy(r, key) && n <= |r|
    ensures forall x, y :: x in r[..n] && y in r[n..] ==> key(x) <= key(y)
  {
    forall x, y | x in r[..n] && y in r[n..]
      ensures key(x) <= key(y)
    {
      var i :| 0 <= i < n && r[..n][i] == x;
      var j :| 0 <= j < |r| - n && r[n..][j] == y;
      assert r[i] == x && r[n + j] == y;
    }
  }

  /**
   * The first `n` elements of the stable sort have keys no greater than any
   * element left out.
   */
  lemma SortedPrefixLeast<T>(s: seq<T>, key: T -> int, n: nat)
    requires n <= |s|
    ensures forall x, y :: x in SortBy(s, key)[..n] && y in multiset(s) - multiset(SortBy(s, key)[..n])
              ==> key(x) <= key(y)
  {
    SortBySorted(s, key);
    SortedSplit(SortBy(s, key), key, n);
    TakeLeavesDrop(SortBy(s, key), n);
  }

  /** `s.slice(-n)` for a positive `n`: the last `n` elements, or all of them. */
  function LastN<T>(s: seq<T>, n: nat): (r: seq<T>)
    requires n > 0
    ensures |r| == if |s| < n then |s| else n
    ensures forall i :: 0 <= i < |r| ==> r[i] == s[|s| - |r| + i]
  {
    if |s| <= n then s else s[|s| - n..]
  }

  /**
   * Appending one element and taking a window of `n` gives the previous
   * window of `n - 1` followed by that element.
   */
  lemma LastNAppend<T>(s: seq<T>, x: T, n: nat)
    requires n > 1
    ensures LastN(s + [x], n) == LastN(s, n - 1) + [x]
  {
    var r := LastN(s + [x], n);
    var q := LastN(s, n - 1);
    assert |r| == |q| + 1;
    forall i | 0 <= i < |r| ensures r[i] == (q + [x])[i] {
    }
  }

  /**
   * The distinct keys of `xs` in order of first appearance: the key order of
   * a JavaScript object filled in that order, none of the keys being an
   * array index.
   */
  function FirstKeys<T, K(==)>(xs: seq<T>, key: T -> K): seq<K>
    decreases |xs|
  {
    if xs == [] then []
    else
      var ks := FirstKeys(xs[..|xs| - 1], key);
      var k := key(xs[|xs| - 1]);
      if k in ks then ks else ks + [k]
  }

  /** The elements with key `k`, in their original order. */
  function Group<T, K(==)>(xs: seq<T>, key: T -> K, k: K): seq<T> {
    Filter(xs, HasKey(key, k))
  }

  /** One more element adds its key at the end, unless the key is already listed. */
  lemma FirstKeysSnoc<T, K>(xs: seq<T>, x: T, key: T -> K)
    ensures FirstKeys(xs + [x], key) == if key(x) in FirstKeys(xs, key) then FirstKeys(xs, key) else FirstKeys(xs, key) + [key(x)]
  {
    assert (xs + [x])[..|xs|] == xs;
  }

  /** No key is listed twice. */
  lemma {:induction false} FirstKeysDistinct<T, K>(xs: seq<T>, key: T -> K)
    ensures forall i, j :: 0 <= i < j < |FirstKeys(xs, key)| ==> FirstKeys(xs, key)[i] != FirstKeys(xs, key)[j]
    decreases |xs|
  {
    if xs != [] {
      var ks := FirstKeys(xs[..|xs| - 1], key);
      var k := key(xs[|xs| - 1]);
      FirstKeysDistinct(xs[..|xs| - 1], key);
      if k !in ks {
        var r := ks + [k];
        forall i, j | 0 <= i < j < |r| ensures r[i] != r[j] {
          assert r[i] == ks[i];
          if j == |ks| {
            assert r[j] == k;
            assert ks[i] in ks;
          } else {
            assert r[j] == ks[j];
          }
        }
        assert FirstKeys(xs, key) == r;
      }
    }
  }

  /** The key of every element is listed. */
  lemma {:induction false} FirstKeysCover<T, K>(xs: seq<T>, key: T -> K)
    ensures forall i :: 0 <= i < |xs| ==> key(xs[i]) in FirstKeys(xs, key)
    decreases |xs|
  {
    if xs != [] {
      var init := xs[..|xs| - 1];
      FirstKeysCover(init, key);
      assert forall i :: 0 <= i < |init| ==> init[i] == xs[i];
    }
  }

  /** Every listed key is the key of some element. */
  lemma {:induction false} FirstKeysSound<T, K>(xs: seq<T>, key: T -> K, k: K)
    requires k in FirstKeys(xs, key)
    ensures exists j :: 0 <= j < |xs| && key(xs[j]) == k
    decreases |xs|
  {
    var init := xs[..|xs| - 1];
    if k in FirstKeys(init, key) {
      FirstKeysSound(init, key, k);
      var j :| 0 <= j < |init| && key(init[j]) == k;
      assert init[j] == xs[j];
    } else {
      assert key(xs[|xs| - 1]) == k;
    }
  }

  /** One more element joins the group of its own key, at the end, and no other group. */
  lemma GroupSnoc<T, K>(xs: seq<T>, x: T, key: T -> K, k: K)
    ensures Group(xs + [x], key, k) == Group(xs, key, k) + (if key(x) == k then [x] else [])
  {
    FilterAppend(xs, [x], HasKey(key, k));
  }

  /** A key that no element has has an empty group. */
  lemma GroupUnlisted<T, K>(xs: seq<T>, key: T -> K, k: K)
    requires k !in FirstKeys(xs, key)
    ensures Group(xs, key, k) == []
  {
    FirstKeysCover(xs, key);
    FilterNone(xs, HasKey(key, k));
  }

  /**
   * `groups` is the object that maps each key of `xs` to its group, with
   * the keys, in insertion order, in `keys`.
   */
  ghost predicate Grouped<T, K(!new)>(xs: seq<T>, key: T -> K, keys: seq<K>, groups: map<K, seq<T>>) {
    && keys == FirstKeys(xs, key)
    && (forall k :: k in keys <==> k in groups)
    && (forall k :: k in groups ==> groups[k] == Group(xs, key, k))
  }

  /** Pushing one more element onto its key's group, creating the key if new, keeps the grouping exact. */
  lemma GroupedSnoc<T, K(!new)>(xs: seq<T>, x: T, key: T -> K, keys: seq<K>, groups: map<K, seq<T>>)
    requires Grouped(xs, key, keys, groups)
    ensures key(x) in groups ==> Grouped(xs + [x], key, keys, groups[key(x) := groups[key(x)] + [x]])
    ensures key(x) !in groups ==> Grouped(xs + [x], key, keys + [key(x)], groups[key(x) := [x]])
  {
    var k := key(x);
    FirstKeysSnoc(xs, x, key);
    if k !in groups {
      GroupUnlisted(xs, key, k);
    }
    var after := if k in groups then groups[k := groups[k] + [x]] else groups[k := [x]];
    forall k' | k' in after
      ensures after[k'] == Group(xs + [x], key, k')
    {
      GroupSnoc(xs, x, key, k');
    }
  }
}
