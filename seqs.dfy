// The sequence operations the source borrows from JavaScript's Array and Map:
// `filter`, `find`, iteration of a Map in insertion order, and the stable
// `sort` with a numeric comparator.
module Seqs {
  import opened Wrappers

  /** `s.filter(p)`: the elements of s that satisfy p, in their order. */
  function Filter<T(!new)>(s: seq<T>, p: T -> bool): (r: seq<T>)
    ensures |r| <= |s|
    ensures forall x :: x in r <==> x in s && p(x)
    ensures forall i :: 0 <= i < |r| ==> p(r[i])
    ensures multiset(r) <= multiset(s)
  {
    if s == [] then []
    else
      assert s == [s[0]] + s[1..];
      (if p(s[0]) then [s[0]] else []) + Filter(s[1..], p)
  }

  /** The positions of s whose elements satisfy p, in increasing order. */
  function FilterIndices<T>(s: seq<T>, p: T -> bool): seq<int> {
    if s == [] then []
    else
      var shifted := Shift(FilterIndices(s[1..], p));
      if p(s[0]) then [0] + shifted else shifted
  }

  function Shift(idx: seq<int>): (r: seq<int>)
    ensures |r| == |idx| && forall i :: 0 <= i < |idx| ==> r[i] == idx[i] + 1
  {
    seq(|idx|, i requires 0 <= i < |idx| => idx[i] + 1)
  }

  /** The positions are in range, strictly increasing, and include every position whose element satisfies p. */
  lemma {:induction false} FilterIndicesRange<T>(s: seq<T>, p: T -> bool)
    ensures forall i :: 0 <= i < |FilterIndices(s, p)| ==> 0 <= FilterIndices(s, p)[i] < |s|
    ensures forall i, j :: 0 <= i < j < |FilterIndices(s, p)| ==> FilterIndices(s, p)[i] < FilterIndices(s, p)[j]
    ensures forall k :: 0 <= k < |s| && p(s[k]) ==> k in FilterIndices(s, p)
  {
    if s != [] {
      FilterIndicesRange(s[1..], p);
      var rest := FilterIndices(s[1..], p);
      var shifted := Shift(rest);
      forall i | 0 <= i < |shifted| ensures 1 <= shifted[i] < |s| {
        assert 0 <= rest[i] < |s| - 1;
      }
      forall k | 1 <= k < |s| && p(s[k]) ensures k in shifted {
        assert s[1..][k - 1] == s[k];
        var i :| 0 <= i < |rest| && rest[i] == k - 1;
        assert shifted[i] == k;
      }
    }
  }

  /** The i-th element Filter keeps is the element at the i-th position. */
  lemma {:induction false} FilterAtIndices<T(!new)>(s: seq<T>, p: T -> bool)
    ensures |FilterIndices(s, p)| == |Filter(s, p)|
    ensures forall i :: 0 <= i < |FilterIndices(s, p)| ==>
              0 <= FilterIndices(s, p)[i] < |s| && Filter(s, p)[i] == s[FilterIndices(s, p)[i]]
  {
    if s != [] {
      FilterAtIndices(s[1..], p);
      var rest := FilterIndices(s[1..], p);
      var f := Filter(s[1..], p);
      var head := if p(s[0]) then [s[0]] else [];
      assert Filter(s, p) == head + f;
      var idx := FilterIndices(s, p);
      forall i | 0 <= i < |idx| ensures 0 <= idx[i] < |s| && Filter(s, p)[i] == s[idx[i]] {
        if i >= |head| {
          var j := i - |head|;
          assert idx[i] == rest[j] + 1;
          assert s[1..][rest[j]] == s[rest[j] + 1];
        }
      }
    }
  }

  /**
   * Filter keeps its elements in their relative order: the i-th kept element
   * sits at the i-th of strictly increasing positions of s, and every
   * position whose element satisfies p is one of them.
   */
  lemma FilterKeepsOrder<T(!new)>(s: seq<T>, p: T -> bool)
    ensures |FilterIndices(s, p)| == |Filter(s, p)|
    ensures forall i :: 0 <= i < |FilterIndices(s, p)| ==>
              0 <= FilterIndices(s, p)[i] < |s| && Filter(s, p)[i] == s[FilterIndices(s, p)[i]]
    ensures forall i, j :: 0 <= i < j < |FilterIndices(s, p)| ==> FilterIndices(s, p)[i] < FilterIndices(s, p)[j]
    ensures forall k :: 0 <= k < |s| && p(s[k]) ==> k in FilterIndices(s, p)
  {
    FilterIndicesRange(s, p);
    FilterAtIndices(s, p);
  }

  /** Filters by two predicates that agree on every element of s are the same. */
  lemma {:induction false} FilterAgree<T(!new)>(s: seq<T>, p: T -> bool, q: T -> bool)
    requires forall i :: 0 <= i < |s| ==> p(s[i]) == q(s[i])
    ensures Filter(s, p) == Filter(s, q)
  {
    if s != [] {
      FilterAgree(s[1..], p, q);
    }
  }

  /** Filtering a concatenation filters each part. */
  lemma {:induction false} FilterAppend<T(!new)>(a: seq<T>, b: seq<T>, p: T -> bool)
    ensures Filter(a + b, p) == Filter(a, p) + Filter(b, p)
  {
    if a == [] {
      assert a + b == b;
    } else {
      assert (a + b)[1..] == a[1..] + b;
      FilterAppend(a[1..], b, p);
    }
  }

  /** A filter that every element passes keeps the whole sequence. */
  lemma {:induction false} FilterAll<T(!new)>(s: seq<T>, p: T -> bool)
    requires forall i :: 0 <= i < |s| ==> p(s[i])
    ensures Filter(s, p) == s
  {
    if s != [] {
      FilterAll(s[1..], p);
    }
  }

  /** `s.find(p)`: the first element that satisfies p, if any. */
  function FirstMatch<T>(s: seq<T>, p: T -> bool): (r: Option<T>)
    ensures r.None? <==> forall i :: 0 <= i < |s| ==> !p(s[i])
    ensures r.Some? ==> exists i :: 0 <= i < |s| && s[i] == r.value && p(s[i]) &&
                          forall j :: 0 <= j < i ==> !p(s[j])
  {
    if s == [] then None
    else if p(s[0]) then Some(s[0])
    else
      var r := FirstMatch(s[1..], p);
      assert r.Some? ==> exists i :: 1 <= i < |s| && s[i] == r.value && p(s[i]) &&
                          forall j :: 0 <= j < i ==> !p(s[j]) by {
        if r.Some? {
          var i :| 0 <= i < |s[1..]| && s[1..][i] == r.value && p(s[1..][i]) &&
                   forall j :: 0 <= j < i ==> !p(s[1..][j]);
          assert s[i + 1] == r.value && p(s[i + 1]);
          forall j | 0 <= j < i + 1 ensures !p(s[j]) {
            if j > 0 { assert s[j] == s[1..][j - 1]; }
          }
        }
      }
      r
  }

  /**
   * The values of m whose keys lie in [lo, hi), in ascending key order.
   * A JavaScript Map iterates in insertion order; the store only ever inserts
   * a key larger than every key inserted before it, so the two orders agree.
   */
  function InKeyOrder<T(!new)>(m: map<int, T>, lo: int, hi: int): (r: seq<T>)
    ensures |r| <= if lo < hi then hi - lo else 0
    ensures forall x :: x in r <==> exists k :: lo <= k < hi && k in m && m[k] == x
    decreases hi - lo
  {
    if lo >= hi then []
    else
      var rest := InKeyOrder(m, lo + 1, hi);
      (if lo in m then [m[lo]] else []) + rest
  }

  lemma ValueHasKey<T>(m: map<int, T>, x: T)
    requires x in m.Values
    ensures exists k :: k in m && m[k] == x
  {
    if forall k :: k in m ==> m[k] != x {
      assert false;
    }
  }

  /** No value of m under a key in [lo, k) satisfies p. */
  ghost predicate NoMatchBetween<T>(m: map<int, T>, lo: int, k: int, p: T -> bool) {
    forall j :: j in m && lo <= j < k ==> !p(m[j])
  }

  /** A non-matching value under lo extends a match-free range down to lo. */
  lemma NoMatchExtend<T>(m: map<int, T>, lo: int, k: int, p: T -> bool)
    requires NoMatchBetween(m, lo + 1, k, p) && !(lo in m && p(m[lo]))
    ensures NoMatchBetween(m, lo, k, p)
  {
    forall j | j in m && lo <= j < k ensures !p(m[j]) {
      if j != lo {
        assert lo + 1 <= j < k;
      }
    }
  }

  /** A first element that fails p does not change what `find` returns. */
  lemma FirstMatchSkip<T>(s: seq<T>, p: T -> bool)
    requires s != [] && !p(s[0])
    ensures FirstMatch(s, p) == FirstMatch(s[1..], p)
  {
  }

  /** A key below the rest whose value fails p does not change what `find` returns. */
  lemma FirstMatchStep<T(!new)>(m: map<int, T>, lo: int, hi: int, p: T -> bool)
    requires lo < hi && !(lo in m && p(m[lo]))
    ensures FirstMatch(InKeyOrder(m, lo, hi), p) == FirstMatch(InKeyOrder(m, lo + 1, hi), p)
  {
    var all := InKeyOrder(m, lo, hi);
    var rest := InKeyOrder(m, lo + 1, hi);
    if lo in m {
      assert all[0] == m[lo] && all[1..] == rest;
      FirstMatchSkip(all, p);
    } else {
      assert all == rest;
    }
  }

  /** What `find` returns over a Map's values sits under the smallest key whose value matches. */
  lemma {:induction false} FirstMatchInKeyOrder<T(!new)>(m: map<int, T>, lo: int, hi: int, p: T -> bool)
    requires FirstMatch(InKeyOrder(m, lo, hi), p).Some?
    ensures var x := FirstMatch(InKeyOrder(m, lo, hi), p).value;
      exists k :: lo <= k < hi && k in m && m[k] == x && p(x) && NoMatchBetween(m, lo, k, p)
    decreases hi - lo
  {
    if lo < hi {
      var x := FirstMatch(InKeyOrder(m, lo, hi), p).value;
      if lo in m && p(m[lo]) {
        assert InKeyOrder(m, lo, hi)[0] == m[lo];
        assert lo <= lo < hi && lo in m && m[lo] == x && p(x) && NoMatchBetween(m, lo, lo, p);
      } else {
        FirstMatchStep(m, lo, hi, p);
        FirstMatchInKeyOrder(m, lo + 1, hi, p);
        var k :| lo + 1 <= k < hi && k in m && m[k] == x && p(x) && NoMatchBetween(m, lo + 1, k, p);
        NoMatchExtend(m, lo, k, p);
        assert lo <= k < hi && k in m && m[k] == x && p(x) && NoMatchBetween(m, lo, k, p);
      }
    }
  }

  /** When every key of m lies in [lo, hi), the iteration visits exactly the values of m. */
  lemma InKeyOrderValues<T(!new)>(m: map<int, T>, lo: int, hi: int)
    requires forall k :: k in m ==> lo <= k < hi
    ensures forall x :: x in InKeyOrder(m, lo, hi) <==> x in m.Values
  {
    forall x ensures x in InKeyOrder(m, lo, hi) <==> x in m.Values {
      if x in InKeyOrder(m, lo, hi) {
        var k :| lo <= k < hi && k in m && m[k] == x;
        assert m[k] in m.Values;
      }
      if x in m.Values {
        var k :| k in m && m[k] == x by {
          ValueHasKey(m, x);
        }
        assert lo <= k < hi;
      }
    }
  }

  /** The keys of m in [lo, hi) whose values satisfy p, in ascending order. */
  function KeysWhere<T>(m: map<int, T>, lo: int, hi: int, p: T -> bool): (ks: seq<int>)
    ensures forall k :: k in ks <==> lo <= k < hi && k in m && p(m[k])
    ensures Increasing(ks)
    decreases hi - lo
  {
    if lo >= hi then []
    else
      var rest := KeysWhere(m, lo + 1, hi, p);
      if lo in m && p(m[lo]) then
        IncreasingCons(lo, rest);
        [lo] + rest
      else
        rest
  }

  predicate Increasing(ks: seq<int>) {
    forall i, j :: 0 <= i < j < |ks| ==> ks[i] < ks[j]
  }

  lemma IncreasingCons(k: int, ks: seq<int>)
    requires Increasing(ks) && forall x :: x in ks ==> k < x
    ensures Increasing([k] + ks)
  {
    var s := [k] + ks;
    forall i, j | 0 <= i < j < |s| ensures s[i] < s[j] {
      assert s[j] == ks[j - 1] && ks[j - 1] in ks;
      if i > 0 {
        assert s[i] == ks[i - 1];
      }
    }
  }

  /**
   * Filtering the iteration of m by p lists m's matching entries in
   * ascending key order, each exactly once: the i-th result is the value
   * under the i-th matching key.
   */
  lemma {:induction false} FilterInKeyOrder<T(!new)>(m: map<int, T>, lo: int, hi: int, p: T -> bool)
    ensures |Filter(InKeyOrder(m, lo, hi), p)| == |KeysWhere(m, lo, hi, p)|
    ensures forall i :: 0 <= i < |KeysWhere(m, lo, hi, p)| ==>
              Filter(InKeyOrder(m, lo, hi), p)[i] == m[KeysWhere(m, lo, hi, p)[i]]
    decreases hi - lo
  {
    if lo < hi {
      FilterInKeyOrder(m, lo + 1, hi, p);
      var rest := InKeyOrder(m, lo + 1, hi);
      var ks := KeysWhere(m, lo + 1, hi, p);
      if lo in m {
        assert InKeyOrder(m, lo, hi) == [m[lo]] + rest;
        FilterCons(m[lo], rest, p);
        if p(m[lo]) {
          assert KeysWhere(m, lo, hi, p) == [lo] + ks;
          ValuesAtCons(m, lo, Filter(rest, p), ks);
        } else {
          assert KeysWhere(m, lo, hi, p) == ks;
        }
      } else {
        assert InKeyOrder(m, lo, hi) == rest;
        assert KeysWhere(m, lo, hi, p) == ks;
      }
    }
  }

  lemma FilterCons<T(!new)>(x: T, s: seq<T>, p: T -> bool)
    ensures Filter([x] + s, p) == if p(x) then [x] + Filter(s, p) else Filter(s, p)
  {
    assert ([x] + s)[1..] == s;
  }

  /** Prepending a key and its value keeps "the i-th value is the value under the i-th key". */
  lemma ValuesAtCons<T>(m: map<int, T>, k: int, vs: seq<T>, ks: seq<int>)
    requires k in m && |vs| == |ks|
    requires forall i :: 0 <= i < |ks| ==> ks[i] in m && vs[i] == m[ks[i]]
    ensures forall i :: 0 <= i < |ks| + 1 ==> ([k] + ks)[i] in m && ([m[k]] + vs)[i] == m[([k] + ks)[i]]
  {
    forall i | 0 <= i < |ks| + 1
      ensures ([k] + ks)[i] in m && ([m[k]] + vs)[i] == m[([k] + ks)[i]]
    {
      if i > 0 {
        assert ([k] + ks)[i] == ks[i - 1];
      }
    }
  }

  /** Every value of the iteration of m, under its keys in ascending order. */
  lemma InKeyOrderAtKeys<T(!new)>(m: map<int, T>, lo: int, hi: int, p: T -> bool)
    requires forall x :: p(x)
    ensures |InKeyOrder(m, lo, hi)| == |KeysWhere(m, lo, hi, p)|
    ensures forall i :: 0 <= i < |KeysWhere(m, lo, hi, p)| ==>
              InKeyOrder(m, lo, hi)[i] == m[KeysWhere(m, lo, hi, p)[i]]
  {
    FilterAll(InKeyOrder(m, lo, hi), p);
    FilterInKeyOrder(m, lo, hi, p);
  }

  /** A key at the top of the range lands at the end of the iteration order. */
  lemma {:induction false} InKeyOrderExtend<T(!new)>(m: map<int, T>, lo: int, hi: int)
    requires lo <= hi
    ensures InKeyOrder(m, lo, hi + 1) ==
            InKeyOrder(m, lo, hi) + (if hi in m then [m[hi]] else [])
    decreases hi - lo
  {
    if lo < hi {
      InKeyOrderExtend(m, lo + 1, hi);
    }
  }

  /** Keys outside [lo, hi) do not take part in the iteration. */
  lemma {:induction false} InKeyOrderIgnores<T(!new)>(m: map<int, T>, lo: int, hi: int, k: int, v: T)
    requires k < lo || hi <= k
    ensures InKeyOrder(m[k := v], lo, hi) == InKeyOrder(m, lo, hi)
    ensures InKeyOrder(m - {k}, lo, hi) == InKeyOrder(m, lo, hi)
    decreases hi - lo
  {
    if lo < hi {
      InKeyOrderIgnores(m, lo + 1, hi, k, v);
    }
  }

  /**
   * The map after `rows.forEach(r => m.set(id(r), r))`: each row is set under
   * its id in turn, so a later row wins over an earlier one with the same id.
   */
  function SetAll<T>(m: map<int, T>, rows: seq<T>, id: T -> int): map<int, T>
    decreases |rows|
  {
    if rows == [] then m
    else SetAll(m, rows[..|rows| - 1], id)[id(rows[|rows| - 1]) := rows[|rows| - 1]]
  }

  /** Setting three rows in turn. */
  lemma SetAllThree<T>(m: map<int, T>, x: T, y: T, z: T, id: T -> int)
    ensures SetAll(m, [x, y, z], id) == m[id(x) := x][id(y) := y][id(z) := z]
  {
    assert [x, y, z][..2] == [x, y];
    assert [x, y][..1] == [x];
    assert [x][..0] == [];
    assert SetAll(m, [x], id) == m[id(x) := x];
    assert SetAll(m, [x, y], id) == m[id(x) := x][id(y) := y];
  }

  // ---------------------------------------------------------------------------
  // Stable sort by a numeric key, the behaviour of `Array.prototype.sort` with
  // the comparator `(a, b) => key(a) - key(b)` (ECMAScript requires stability).

  ghost predicate SortedBy<T>(s: seq<T>, key: T -> int) {
    forall i, j :: 0 <= i < j < |s| ==> key(s[i]) <= key(s[j])
  }

  /** The elements of s whose key is k, in their order. */
  function WithKey<T>(s: seq<T>, key: T -> int, k: int): seq<T> {
    if s == [] then [] else (if key(s[0]) == k then [s[0]] else []) + WithKey(s[1..], key, k)
  }

  /** Puts x in front of the first element whose key is not below key(x). */
  function InsertBy<T>(x: T, s: seq<T>, key: T -> int): (r: seq<T>)
    ensures |r| == |s| + 1
    ensures multiset(r) == multiset(s) + multiset{x}
    ensures SortedBy(s, key) ==> SortedBy(r, key)
  {
    if s == [] then [x]
    else if key(x) <= key(s[0]) then [x] + s
    else
      var t := InsertBy(x, s[1..], key);
      assert s == [s[0]] + s[1..];
      assert SortedBy(s, key) ==> SortedBy([s[0]] + t, key) by {
        if SortedBy(s, key) {
          LowerBoundKept(s[0], s[1..], x, t, key);
          SortedCons(s[0], t, key);
        }
      }
      [s[0]] + t
  }

  lemma SortedCons<T>(a: T, t: seq<T>, key: T -> int)
    requires SortedBy(t, key)
    requires forall j :: 0 <= j < |t| ==> key(a) <= key(t[j])
    ensures SortedBy([a] + t, key)
  {
  }

  /** A key at most every key of s and of x bounds every element of t, whose elements are those of s and x. */
  lemma LowerBoundKept<T>(a: T, s: seq<T>, x: T, t: seq<T>, key: T -> int)
    requires forall i :: 0 <= i < |s| ==> key(a) <= key(s[i])
    requires key(a) < key(x) && multiset(t) == multiset(s) + multiset{x}
    ensures forall j :: 0 <= j < |t| ==> key(a) <= key(t[j])
  {
    forall j | 0 <= j < |t| ensures key(a) <= key(t[j]) {
      assert t[j] in multiset(t);
      if t[j] != x {
        assert t[j] in multiset(s);
        var i :| 0 <= i < |s| && s[i] == t[j];
      }
    }
  }

  /** Stable insertion sort, ascending by key. */
  function SortBy<T>(s: seq<T>, key: T -> int): (r: seq<T>)
    ensures |r| == |s|
    ensures multiset(r) == multiset(s)
    ensures SortedBy(r, key)
  {
    if s == [] then []
    else
      assert s == [s[0]] + s[1..];
      InsertBy(s[0], SortBy(s[1..], key), key)
  }

  lemma WithKeyCons<T>(a: T, s: seq<T>, key: T -> int, k: int)
    ensures WithKey([a] + s, key, k) == (if key(a) == k then [a] else []) + WithKey(s, key, k)
  {
    var r := [a] + s;
    assert r[0] == a && r[1..] == s;
  }

  /** Moving x past an element of a different key keeps the elements with key k in order. */
  lemma WithKeyPast<T>(x: T, a: T, rest: seq<T>, t: seq<T>, key: T -> int, k: int)
    requires key(x) != key(a)
    requires WithKey(t, key, k) == (if key(x) == k then [x] else []) + WithKey(rest, key, k)
    ensures WithKey([a] + t, key, k) == (if key(x) == k then [x] else []) + WithKey([a] + rest, key, k)
  {
    WithKeyCons(a, rest, key, k);
    WithKeyCons(a, t, key, k);
    var w := WithKey(rest, key, k);
    if key(x) == k {
      assert WithKey([a] + t, key, k) == [x] + w;
    } else {
      assert WithKey(t, key, k) == w;
    }
  }

  lemma {:induction false} WithKeyInsert<T>(x: T, s: seq<T>, key: T -> int, k: int)
    ensures WithKey(InsertBy(x, s, key), key, k) ==
            (if key(x) == k then [x] else []) + WithKey(s, key, k)
  {
    if s == [] {
      assert [x] + s == [x];
      WithKeyCons(x, s, key, k);
    } else if key(x) <= key(s[0]) {
      WithKeyCons(x, s, key, k);
    } else {
      var t := InsertBy(x, s[1..], key);
      WithKeyInsert(x, s[1..], key, k);
      WithKeyPast(x, s[0], s[1..], t, key, k);
      assert s == [s[0]] + s[1..];
    }
  }

  /** Elements with equal keys keep their relative order: the sort is stable. */
  lemma {:induction false} SortByStable<T>(s: seq<T>, key: T -> int, k: int)
    ensures WithKey(SortBy(s, key), key, k) == WithKey(s, key, k)
  {
    if s != [] {
      SortByStable(s[1..], key, k);
      WithKeyInsert(s[0], SortBy(s[1..], key), key, k);
    }
  }

  /** The elements with one key are exactly those the filter on that key keeps. */
  lemma {:induction false} WithKeyIsFilter<T(!new)>(s: seq<T>, key: T -> int, k: int)
    ensures WithKey(s, key, k) == Filter(s, x => key(x) == k)
  {
    if s != [] {
      WithKeyIsFilter(s[1..], key, k);
    }
  }

  /** Sorting by the negated key keeps, for every key, the input's order of the elements with that key. */
  lemma SortByNegatedStable<T>(s: seq<T>, key: T -> int, neg: T -> int)
    requires forall x :: neg(x) == -key(x)
    ensures forall t :: WithKey(SortBy(s, neg), key, t) == WithKey(s, key, t)
  {
    forall t ensures WithKey(SortBy(s, neg), key, t) == WithKey(s, key, t) {
      SortByNegatedStableAt(s, key, neg, t);
    }
  }

  lemma SortByNegatedStableAt<T>(s: seq<T>, key: T -> int, neg: T -> int, t: int)
    requires forall x :: neg(x) == -key(x)
    ensures WithKey(SortBy(s, neg), key, t) == WithKey(s, key, t)
  {
    SortByStable(s, neg, -t);
    WithKeyNegated(SortBy(s, neg), key, neg, t);
    WithKeyNegated(s, key, neg, t);
  }

  /** Sorting ascending by the negated key sorts descending by the key. */
  lemma SortByNegatedDescending<T>(s: seq<T>, key: T -> int, neg: T -> int)
    requires forall x :: neg(x) == -key(x)
    ensures forall i, j :: 0 <= i < j < |SortBy(s, neg)| ==> key(SortBy(s, neg)[i]) >= key(SortBy(s, neg)[j])
  {
    var r := SortBy(s, neg);
    assert SortedBy(r, neg);
    forall i, j | 0 <= i < j < |r| ensures key(r[i]) >= key(r[j]) {
      assert neg(r[i]) <= neg(r[j]);
    }
  }

  /** Sequences with equal multisets have the same members. */
  lemma SameMembers<T>(a: seq<T>, b: seq<T>)
    requires multiset(a) == multiset(b)
    ensures forall x :: x in a <==> x in b
  {
    forall x ensures x in a <==> x in b {
      assert x in a <==> x in multiset(a);
      assert x in b <==> x in multiset(b);
    }
  }

  /** Sorting by the negated key orders by the key descending; the classes of equal keys are the same. */
  lemma {:induction false} WithKeyNegated<T>(s: seq<T>, key: T -> int, neg: T -> int, t: int)
    requires forall x :: neg(x) == -key(x)
    ensures WithKey(s, neg, -t) == WithKey(s, key, t)
  {
    if s != [] {
      WithKeyNegated(s[1..], key, neg, t);
    }
  }
}
