/** The array operations the screens use on in-memory lists: `filter`, the
    keep-first-occurrence idiom (`new Set`, `findIndex`) and a stable `sort`
    with a descending comparator. */
module Lists {

  /** a can be obtained from b by deleting elements (matched greedily from the end). */
  predicate IsSubsequence<T(==)>(a: seq<T>, b: seq<T>)
    decreases |b|
  {
    if a == [] then true
    else if b == [] then false
    else if a[|a| - 1] == b[|b| - 1] then IsSubsequence(a[..|a| - 1], b[..|b| - 1])
    else IsSubsequence(a, b[..|b| - 1])
  }

  lemma {:induction false} SubsequenceDropLast<T>(a: seq<T>, b: seq<T>)
    requires a != [] && IsSubsequence(a, b)
    ensures IsSubsequence(a[..|a| - 1], b)
    decreases |b|, 0
  {
    var a', b' := a[..|a| - 1], b[..|b| - 1];
    if a' == [] {
    } else if a[|a| - 1] == b[|b| - 1] {
      SubsequenceAppend(a', b', b[|b| - 1]);
    } else {
      SubsequenceDropLast(a, b');
      SubsequenceAppend(a', b', b[|b| - 1]);
    }
  }

  /** Appending to the longer list keeps a subsequence; appending to both extends it. */
  lemma {:induction false} SubsequenceAppend<T>(a: seq<T>, b: seq<T>, x: T)
    requires IsSubsequence(a, b)
    ensures IsSubsequence(a, b + [x])
    ensures IsSubsequence(a + [x], b + [x])
    decreases |b|, 1
  {
    assert (b + [x])[..|b|] == b;
    assert (a + [x])[..|a|] == a;
    if a != [] && a[|a| - 1] == x {
      SubsequenceDropLast(a, b);
    }
  }

  /** Every element of a subsequence is an element of the list. */
  lemma {:induction false} SubsequenceMembers<T>(a: seq<T>, b: seq<T>, x: T)
    requires IsSubsequence(a, b) && x in a
    ensures x in b
    decreases |b|
  {
    var a', b' := a[..|a| - 1], b[..|b| - 1];
    if a[|a| - 1] == b[|b| - 1] {
      if x != a[|a| - 1] {
        assert a == a' + [a[|a| - 1]];
        SubsequenceMembers(a', b', x);
      }
    } else {
      SubsequenceMembers(a, b', x);
    }
  }

  /** `s.filter(p)`. */
  function Filter<T>(s: seq<T>, p: T -> bool): (r: seq<T>)
    ensures |r| <= |s|
    ensures forall i :: 0 <= i < |r| ==> p(r[i])
  {
    if s == [] then [] else
    var init := Filter(s[..|s| - 1], p);
    if p(s[|s| - 1]) then init + [s[|s| - 1]] else init
  }

  /** The filtered list is a subsequence holding each element that passes, as
      often as the list has it, and no element that fails. */
  lemma {:induction false} FilterSpec<T>(s: seq<T>, p: T -> bool)
    ensures IsSubsequence(Filter(s, p), s)
    ensures forall x :: multiset(Filter(s, p))[x] == if p(x) then multiset(s)[x] else 0
    ensures forall x :: x in Filter(s, p) <==> x in s && p(x)
  {
    if s != [] {
      var s', x := s[..|s| - 1], s[|s| - 1];
      FilterSpec(s', p);
      assert s == s' + [x];
      SubsequenceAppend(Filter(s', p), s', x);
      forall y ensures y in Filter(s, p) <==> y in s && p(y) {
        assert y in Filter(s, p) <==> multiset(Filter(s, p))[y] > 0;
        assert y in s <==> multiset(s)[y] > 0;
      }
    }
  }

  /** The positions of s whose element passes p. */
  function Positions<T>(s: seq<T>, p: T -> bool): set<int> {
    set i | 0 <= i < |s| && p(s[i])
  }

  /** The filtered list is as long as the number of positions whose element passes. */
  lemma {:induction false} FilterCount<T>(s: seq<T>, p: T -> bool)
    ensures |Filter(s, p)| == |Positions(s, p)|
  {
    if s != [] {
      var s' := s[..|s| - 1];
      FilterCount(s', p);
      var before := Positions(s', p);
      var after := Positions(s, p);
      assert forall i :: 0 <= i < |s'| ==> s'[i] == s[i];
      if p(s[|s| - 1]) {
        assert after == before + {|s| - 1};
        assert |s| - 1 !in before;
      } else {
        assert after == before;
      }
    }
  }

  /** Filtering a concatenation concatenates the filtered parts. */
  lemma {:induction false} FilterAppend<T>(a: seq<T>, b: seq<T>, p: T -> bool)
    ensures Filter(a + b, p) == Filter(a, p) + Filter(b, p)
    decreases |b|
  {
    if b == [] {
      assert a + b == a;
    } else {
      var b' := b[..|b| - 1];
      assert (a + b)[..|a + b| - 1] == a + b';
      assert (a + b)[|a + b| - 1] == b[|b| - 1];
      FilterAppend(a, b', p);
    }
  }

  /** A filter every element passes keeps the whole list. */
  lemma {:induction false} FilterAll<T>(s: seq<T>, p: T -> bool)
    requires forall i :: 0 <= i < |s| ==> p(s[i])
    ensures Filter(s, p) == s
  {
    if s != [] {
      FilterAll(s[..|s| - 1], p);
      assert s == s[..|s| - 1] + [s[|s| - 1]];
    }
  }

  /** Nothing is dropped exactly when every element passes. */
  lemma {:induction false} FilterKeepsAll<T>(s: seq<T>, p: T -> bool)
    ensures |Filter(s, p)| == |s| <==> forall i :: 0 <= i < |s| ==> p(s[i])
  {
    if s != [] {
      var init := s[..|s| - 1];
      FilterKeepsAll(init, p);
      assert forall i :: 0 <= i < |init| ==> init[i] == s[i];
      if forall i :: 0 <= i < |s| ==> p(s[i]) {
        assert forall i :: 0 <= i < |init| ==> p(init[i]);
      }
    }
  }

  /** Two tests that agree on every element of s filter it alike. */
  lemma {:induction false} FilterCongruent<T>(s: seq<T>, p: T -> bool, q: T -> bool)
    requires forall i :: 0 <= i < |s| ==> p(s[i]) == q(s[i])
    ensures Filter(s, p) == Filter(s, q)
  {
    if s != [] { FilterCongruent(s[..|s| - 1], p, q); }
  }

  /** The keys of s, in order. */
  function KeysOf<T, K>(s: seq<T>, key: T -> K): (ks: seq<K>)
    ensures |ks| == |s|
    ensures forall i :: 0 <= i < |s| ==> ks[i] == key(s[i])
  {
    seq(|s|, i requires 0 <= i < |s| => key(s[i]))
  }

  /** Index of the first element of s whose key is k. */
  function FirstIndexOfKey<T, K(==)>(s: seq<T>, key: T -> K, k: K): (i: nat)
    requires k in KeysOf(s, key)
    ensures i < |s| && key(s[i]) == k
    ensures forall j :: 0 <= j < i ==> key(s[j]) != k
  {
    if key(s[0]) == k then 0
    else
      assert KeysOf(s, key) == [key(s[0])] + KeysOf(s[1..], key);
      1 + FirstIndexOfKey(s[1..], key, k)
  }

  /** Keeps each element whose key no earlier element has: `[...new Set(s)]` when
      the key is the element itself, `s.filter((x, i) => i === s.findIndex(y =>
      y.id === x.id))` when it is an id. */
  function DedupBy<T, K(==)>(s: seq<T>, key: T -> K): (r: seq<T>)
    ensures |r| <= |s|
  {
    if s == [] then [] else
    var init := DedupBy(s[..|s| - 1], key);
    if key(s[|s| - 1]) in KeysOf(init, key) then init else init + [s[|s| - 1]]
  }

  /** The deduplicated list is a subsequence of s. */
  lemma {:induction false} DedupBySubsequence<T, K>(s: seq<T>, key: T -> K)
    ensures IsSubsequence(DedupBy(s, key), s)
  {
    if s != [] {
      var s', x := s[..|s| - 1], s[|s| - 1];
      DedupBySubsequence(s', key);
      assert s == s' + [x];
      SubsequenceAppend(DedupBy(s', key), s', x);
    }
  }

  /** Every element the deduplication keeps is an element of s. */
  lemma DedupByMembers<T, K>(s: seq<T>, key: T -> K, x: T)
    requires x in DedupBy(s, key)
    ensures x in s
  {
    DedupBySubsequence(s, key);
    SubsequenceMembers(DedupBy(s, key), s, x);
  }

  /** No two elements of s have the same key. */
  predicate KeysDistinct<T, K(==)>(s: seq<T>, key: T -> K) {
    forall i, j :: 0 <= i < j < |s| ==> key(s[i]) != key(s[j])
  }

  /** Each element of r has a key that s has, and is the first element of s with that key. */
  predicate FirstOfKeys<T(==), K(==)>(r: seq<T>, s: seq<T>, key: T -> K) {
    forall i :: 0 <= i < |r| ==>
      (key(r[i]) in KeysOf(s, key) && r[i] == s[FirstIndexOfKey(s, key, key(r[i]))])
  }

  /** The keys of the deduplicated list are pairwise distinct. */
  lemma {:induction false} DedupByDistinctKeys<T, K>(s: seq<T>, key: T -> K)
    ensures KeysDistinct(DedupBy(s, key), key)
  {
    if s != [] {
      var s', x := s[..|s| - 1], s[|s| - 1];
      var init := DedupBy(s', key);
      var r := DedupBy(s, key);
      DedupByDistinctKeys(s', key);
      if key(x) !in KeysOf(init, key) {
        assert r == init + [x];
        forall i, j | 0 <= i < j < |r| ensures key(r[i]) != key(r[j]) {
          assert r[i] == init[i];
          if j == |init| {
            assert key(r[i]) == KeysOf(init, key)[i];
          } else {
            assert r[j] == init[j];
          }
        }
      }
    }
  }

  /** Every key of s is the key of some element the deduplication keeps. */
  lemma {:induction false} DedupByCovers<T, K>(s: seq<T>, key: T -> K)
    ensures forall i :: 0 <= i < |s| ==> key(s[i]) in KeysOf(DedupBy(s, key), key)
  {
    if s != [] {
      var s', x := s[..|s| - 1], s[|s| - 1];
      var init := DedupBy(s', key);
      var r := DedupBy(s, key);
      DedupByCovers(s', key);
      forall i | 0 <= i < |s| ensures key(s[i]) in KeysOf(r, key) {
        if i < |s'| {
          assert s[i] == s'[i];
          var j :| 0 <= j < |init| && KeysOf(init, key)[j] == key(s[i]);
          assert r[j] == init[j];
          assert KeysOf(r, key)[j] == key(s[i]);
        } else if key(x) !in KeysOf(init, key) {
          assert r == init + [x];
          assert KeysOf(r, key)[|init|] == key(x);
        }
      }
    }
  }

  /** Each element the deduplication keeps is the first element of s with its key;
      with the three lemmas above this fixes the result, and says that keys come
      in order of first appearance. */
  lemma {:induction false} DedupByFirst<T, K>(s: seq<T>, key: T -> K)
    ensures FirstOfKeys(DedupBy(s, key), s, key)
  {
    if s != [] {
      var s', x := s[..|s| - 1], s[|s| - 1];
      var init := DedupBy(s', key);
      var r := DedupBy(s, key);
      DedupByFirst(s', key);
      assert s' == s[..|s'|];
      forall i | 0 <= i < |r|
        ensures key(r[i]) in KeysOf(s, key) && r[i] == s[FirstIndexOfKey(s, key, key(r[i]))]
      {
        if i < |init| {
          assert r[i] == init[i];
          FirstIndexPrefix(s', s, key, key(r[i]));
        } else {
          assert key(x) !in KeysOf(init, key) && r[i] == x;
          assert KeysOf(s, key)[|s'|] == key(x);
          DedupByCovers(s', key);
          forall j | 0 <= j < |s'| ensures key(s[j]) != key(x) {
            assert s[j] == s'[j];
            assert key(s'[j]) in KeysOf(init, key);
          }
          var f := FirstIndexOfKey(s, key, key(x));
          assert f == |s'|;
        }
      }
    }
  }

  lemma {:induction false} FirstIndexPrefix<T, K>(s': seq<T>, s: seq<T>, key: T -> K, k: K)
    requires |s'| <= |s| && s' == s[..|s'|] && k in KeysOf(s', key)
    ensures k in KeysOf(s, key)
    ensures FirstIndexOfKey(s', key, k) == FirstIndexOfKey(s, key, k)
  {
    var i := FirstIndexOfKey(s', key, k);
    assert KeysOf(s, key)[i] == k;
    var j := FirstIndexOfKey(s, key, k);
    assert j <= i;
    assert key(s'[j]) == k;
  }

  /** The keys of r are keys of s, listed in the order in which they first appear in s. */
  predicate InFirstAppearanceOrder<T, K(==)>(r: seq<T>, s: seq<T>, key: T -> K) {
    forall i, j :: 0 <= i < j < |r| ==>
      key(r[i]) in KeysOf(s, key) && key(r[j]) in KeysOf(s, key) &&
      FirstIndexOfKey(s, key, key(r[i])) < FirstIndexOfKey(s, key, key(r[j]))
  }

  /** The deduplicated list lists keys in the order of their first appearance in s. */
  lemma {:induction false} DedupByOrdered<T, K>(s: seq<T>, key: T -> K)
    ensures InFirstAppearanceOrder(DedupBy(s, key), s, key)
  {
    if s != [] {
      var s', x := s[..|s| - 1], s[|s| - 1];
      var init := DedupBy(s', key);
      var r := DedupBy(s, key);
      DedupByOrdered(s', key);
      DedupByFirst(s', key);
      DedupByFirst(s, key);
      assert s' == s[..|s'|];
      forall i, j | 0 <= i < j < |r|
        ensures key(r[i]) in KeysOf(s, key) && key(r[j]) in KeysOf(s, key) &&
          FirstIndexOfKey(s, key, key(r[i])) < FirstIndexOfKey(s, key, key(r[j]))
      {
        assert r[i] == init[i];
        FirstIndexPrefix(s', s, key, key(r[i]));
        if j < |init| {
          assert r[j] == init[j];
          FirstIndexPrefix(s', s, key, key(r[j]));
        } else {
          assert key(x) !in KeysOf(init, key) && r[j] == x;
          assert KeysOf(s, key)[|s'|] == key(x);
          DedupByCovers(s', key);
          forall k | 0 <= k < |s'| ensures key(s[k]) != key(x) {
            assert s[k] == s'[k];
            assert key(s'[k]) in KeysOf(init, key);
          }
          assert FirstIndexOfKey(s, key, key(x)) == |s'|;
        }
      }
    }
  }

  /** A list whose keys are already pairwise distinct is its own deduplication. */
  lemma {:induction false} DedupByDistinct<T, K>(s: seq<T>, key: T -> K)
    requires KeysDistinct(s, key)
    ensures DedupBy(s, key) == s
  {
    if s != [] {
      var s', x := s[..|s| - 1], s[|s| - 1];
      DedupByDistinct(s', key);
      forall j | 0 <= j < |s'| ensures KeysOf(s', key)[j] != key(x) {
        assert s'[j] == s[j];
      }
      assert s == s' + [x];
    }
  }

  /** s is in non-increasing order of key. */
  predicate SortedDesc<T>(s: seq<T>, key: T -> real) {
    forall i, j :: 0 <= i < j < |s| ==> key(s[i]) >= key(s[j])
  }

  /** The elements of s whose key is k, in order. */
  function WithKey<T>(s: seq<T>, key: T -> real, k: real): (r: seq<T>)
    ensures forall i :: 0 <= i < |r| ==> key(r[i]) == k
  {
    if s == [] then []
    else (if key(s[0]) == k then [s[0]] else []) + WithKey(s[1..], key, k)
  }

  /** Puts x before the first element of s whose key is not larger than its own,
      so x stays ahead of the elements it ties with. */
  function InsertDesc<T>(x: T, s: seq<T>, key: T -> real): (r: seq<T>)
    ensures multiset(r) == multiset(s) + multiset{x}
  {
    if s == [] || key(s[0]) <= key(x) then [x] + s
    else
      assert s == [s[0]] + s[1..];
      [s[0]] + InsertDesc(x, s[1..], key)
  }

  /** `[...s].sort((a, b) => key(b) - key(a))`: ECMAScript's sort is stable, so
      elements with equal keys keep their relative order. */
  function SortDesc<T>(s: seq<T>, key: T -> real): (r: seq<T>)
    ensures multiset(r) == multiset(s)
  {
    if s == [] then []
    else
      assert s == [s[0]] + s[1..];
      InsertDesc(s[0], SortDesc(s[1..], key), key)
  }

  lemma {:induction false} InsertDescSorted<T>(x: T, s: seq<T>, key: T -> real)
    requires SortedDesc(s, key)
    ensures SortedDesc(InsertDesc(x, s, key), key)
  {
    var r := InsertDesc(x, s, key);
    if s == [] || key(s[0]) <= key(x) {
      assert r[1..] == s;
      forall i, j | 0 <= i < j < |r| ensures key(r[i]) >= key(r[j]) {
        if i == 0 { assert r[j] == s[j - 1]; }
        else { assert r[i] == s[i - 1] && r[j] == s[j - 1]; }
      }
    } else {
      var t := InsertDesc(x, s[1..], key);
      assert r == [s[0]] + t;
      assert SortedDesc(s[1..], key) by {
        forall i, j | 0 <= i < j < |s[1..]| ensures key(s[1..][i]) >= key(s[1..][j]) {
          assert s[1..][i] == s[i + 1] && s[1..][j] == s[j + 1];
        }
      }
      InsertDescSorted(x, s[1..], key);
      forall j | 0 <= j < |t| ensures key(s[0]) >= key(t[j]) {
        assert t[j] in multiset(s[1..]) + multiset{x};
        if t[j] != x {
          assert t[j] in s[1..];
          var m :| 0 <= m < |s[1..]| && s[1..][m] == t[j];
          assert s[1..][m] == s[m + 1];
        }
      }
      forall i, j | 0 <= i < j < |r| ensures key(r[i]) >= key(r[j]) {
        if i == 0 { assert r[j] == t[j - 1]; }
        else { assert r[i] == t[i - 1] && r[j] == t[j - 1]; }
      }
    }
  }

  lemma {:induction false} InsertDescStable<T>(x: T, s: seq<T>, key: T -> real, k: real)
    ensures WithKey(InsertDesc(x, s, key), key, k)
      == (if key(x) == k then [x] else []) + WithKey(s, key, k)
  {
    var r := InsertDesc(x, s, key);
    if s == [] || key(s[0]) <= key(x) {
      assert r[1..] == s;
    } else {
      var t := InsertDesc(x, s[1..], key);
      assert r == [s[0]] + t;
      assert r[1..] == t;
      InsertDescStable(x, s[1..], key, k);
    }
  }

  /** The sorted copy is in non-increasing key order, and for every key value the
      elements with that key appear in the same order as in s (stability). */
  lemma {:induction false} SortDescSpec<T>(s: seq<T>, key: T -> real)
    ensures SortedDesc(SortDesc(s, key), key)
    ensures forall k :: WithKey(SortDesc(s, key), key, k) == WithKey(s, key, k)
  {
    if s != [] {
      SortDescSpec(s[1..], key);
      InsertDescSorted(s[0], SortDesc(s[1..], key), key);
      forall k ensures WithKey(SortDesc(s, key), key, k) == WithKey(s, key, k) {
        InsertDescStable(s[0], SortDesc(s[1..], key), key, k);
      }
    }
  }

  /** When every key is the same (the comparator returns 0), the sort keeps the order. */
  lemma {:induction false} SortDescConstantKey<T>(s: seq<T>, key: T -> real)
    requires forall i :: 0 <= i < |s| ==> key(s[i]) == key(s[0])
    ensures SortDesc(s, key) == s
  {
    if s != [] {
      SortDescConstantKey(s[1..], key);
      var t := s[1..];
      if t != [] { assert key(t[0]) == key(s[0]); }
    }
  }

  /** `s.reduce((sum, x) => sum + f(x), 0)`. */
  function Sum<T>(s: seq<T>, f: T -> int): int {
    if s == [] then 0 else Sum(s[..|s| - 1], f) + f(s[|s| - 1])
  }

  /** Summing over a concatenation adds the sums. */
  lemma {:induction false} SumAppend<T>(a: seq<T>, b: seq<T>, f: T -> int)
    ensures Sum(a + b, f) == Sum(a, f) + Sum(b, f)
    decreases |b|
  {
    if b == [] {
      assert a + b == a;
    } else {
      var b' := b[..|b| - 1];
      assert (a + b)[..|a + b| - 1] == a + b';
      assert (a + b)[|a + b| - 1] == b[|b| - 1];
      SumAppend(a, b', f);
    }
  }
}
