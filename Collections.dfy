/** Sequence operations the components share: an optional value, `filter`, and
    the stable sort of `Array.prototype.sort` driven by an integer key.

    With a comparator of the shape `(a, b) => key(a) - key(b)` the ECMAScript
    sort (stable since ES2019) must produce the unique permutation that is
    ordered by `key` and keeps equal-key elements in their input order.
    `SortBy` is an insertion sort with exactly that result: `SortByIsStableSort`
    and `StableSortUnique` prove that it is the stable sort and the only one. */
module Collections {

  datatype Option<+T> = None | Some(value: T)

  /** `s.filter(p)`: the elements of `s` that satisfy `p`, in their order. */
  function Filter<T>(s: seq<T>, p: T -> bool): (r: seq<T>)
    ensures |r| <= |s|
    ensures forall i :: 0 <= i < |r| ==> r[i] in s && p(r[i])
    ensures forall i :: 0 <= i < |s| && p(s[i]) ==> s[i] in r
  {
    if s == [] then [] else (if p(s[0]) then [s[0]] else []) + Filter(s[1..], p)
  }

  /** One step of `Filter` past a head that fails `p`. */
  lemma FilterDrop<T>(s: seq<T>, p: T -> bool)
    requires s != [] && !p(s[0])
    ensures Filter(s, p) == Filter(s[1..], p)
  {
  }

  /** One step of `Filter` past a head that passes `p`. */
  lemma FilterKeep<T>(s: seq<T>, p: T -> bool)
    requires s != [] && p(s[0])
    ensures Filter(s, p) == [s[0]] + Filter(s[1..], p)
  {
  }

  lemma {:induction false} FilterConcat<T>(a: seq<T>, b: seq<T>, p: T -> bool)
    ensures Filter(a + b, p) == Filter(a, p) + Filter(b, p)
  {
    if a == [] {
      assert a + b == b;
    } else {
      assert (a + b)[1..] == a[1..] + b;
      FilterConcat(a[1..], b, p);
    }
  }

  /** `idx` lists strictly increasing positions of `s` at which `r`'s
      elements stand: `r` is a subsequence of `s`, picked at `idx`. */
  ghost predicate PicksAt<T>(idx: seq<int>, s: seq<T>, r: seq<T>)
  {
    |idx| == |r| &&
    (forall i :: 0 <= i < |idx| ==> 0 <= idx[i] < |s| && s[idx[i]] == r[i]) &&
    (forall i, j :: 0 <= i < j < |idx| ==> idx[i] < idx[j])
  }

  function Shift(idx: seq<int>): (r: seq<int>)
    ensures |r| == |idx| && forall i :: 0 <= i < |idx| ==> r[i] == idx[i] + 1
  {
    if idx == [] then [] else [idx[0] + 1] + Shift(idx[1..])
  }

  /** The positions of `s` whose element passes `p`, in increasing order. */
  function Passing<T>(s: seq<T>, p: T -> bool): (idx: seq<int>)
    ensures |idx| == |Filter(s, p)|
  {
    if s == [] then [] else (if p(s[0]) then [0] else []) + Shift(Passing(s[1..], p))
  }

  lemma ShiftMembers(idx: seq<int>, k: int)
    ensures k in Shift(idx) <==> k - 1 in idx
  {
    var sh := Shift(idx);
    if k - 1 in idx {
      var i :| 0 <= i < |idx| && idx[i] == k - 1;
      assert sh[i] == k;
    }
    if k in sh {
      var i :| 0 <= i < |sh| && sh[i] == k;
      assert idx[i] == k - 1;
    }
  }

  /** Picking from the tail at shifted positions picks from the whole, and a
      head in front of them keeps the positions increasing. */
  lemma ShiftPicks<T>(idx: seq<int>, s: seq<T>, r: seq<T>, withHead: bool)
    requires s != [] && PicksAt(idx, s[1..], r)
    ensures withHead ==> PicksAt([0] + Shift(idx), s, [s[0]] + r)
    ensures !withHead ==> PicksAt(Shift(idx), s, r)
  {
    var sh := Shift(idx);
    assert PicksAt(sh, s, r) by {
      forall i | 0 <= i < |sh| ensures 0 <= sh[i] < |s| && s[sh[i]] == r[i] {
        assert s[sh[i]] == s[1..][idx[i]];
      }
    }
    if withHead {
      var idx0, r0 := [0] + sh, [s[0]] + r;
      forall i | 0 < i < |idx0| ensures idx0[i] == sh[i - 1] && r0[i] == r[i - 1] {
      }
    }
  }

  /** `filter` keeps order and multiplicity: its result is the subsequence of
      `s` picked at exactly the positions whose element passes `p`. */
  lemma {:induction false} FilterInOrder<T>(s: seq<T>, p: T -> bool)
    ensures PicksAt(Passing(s, p), s, Filter(s, p))
    ensures forall k :: 0 <= k < |s| ==> (k in Passing(s, p) <==> p(s[k]))
  {
    if s != [] {
      var t := s[1..];
      FilterInOrder(t, p);
      ShiftPicks(Passing(t, p), s, Filter(t, p), p(s[0]));
      forall k | 0 <= k < |s| ensures k in Passing(s, p) <==> p(s[k]) {
        ShiftMembers(Passing(t, p), k);
        if k > 0 {
          assert s[k] == t[k - 1];
        }
      }
    }
  }

  /** `x` stands in `s` at a position preceded by exactly `n` elements that
      pass `p`. */
  ghost predicate PrecededBy<T>(s: seq<T>, p: T -> bool, x: T, n: nat)
  {
    exists k :: 0 <= k < |s| && s[k] == x && |Filter(s[..k], p)| == n
  }

  /** Counting the passing elements of a prefix one step past the head. */
  lemma FilterPrefixStep<T>(s: seq<T>, p: T -> bool, k: nat)
    requires k < |s|
    ensures |Filter(s[..k + 1], p)| == (if p(s[0]) then 1 else 0) + |Filter(s[1..][..k], p)|
  {
    var u := s[..k + 1];
    assert u[1..] == s[1..][..k];
    if p(u[0]) { FilterKeep(u, p); } else { FilterDrop(u, p); }
  }

  /** The `i`-th element `filter` returns stands at a position of `s` preceded
      by exactly `i` passing elements. */
  lemma {:induction false} FilterPosition<T>(s: seq<T>, p: T -> bool, i: nat)
    requires i < |Filter(s, p)|
    ensures PrecededBy(s, p, Filter(s, p)[i], i)
  {
    var t := s[1..];
    var x := Filter(s, p)[i];
    if p(s[0]) {
      FilterKeep(s, p);
    } else {
      FilterDrop(s, p);
    }
    if p(s[0]) && i == 0 {
      assert s[..0] == [] && Filter(s[..0], p) == [];
      assert s[0] == x;
    } else {
      var j := if p(s[0]) then i - 1 else i;
      assert x == Filter(t, p)[j];
      FilterPosition(t, p, j);
      var k' :| 0 <= k' < |t| && t[k'] == x && |Filter(t[..k'], p)| == j;
      FilterPrefixStep(s, p, k');
      assert s[k' + 1] == x;
    }
  }

  lemma FilterPositions<T>(s: seq<T>, p: T -> bool)
    ensures forall i :: 0 <= i < |Filter(s, p)| ==> PrecededBy(s, p, Filter(s, p)[i], i)
  {
    forall i | 0 <= i < |Filter(s, p)| ensures PrecededBy(s, p, Filter(s, p)[i], i) {
      FilterPosition(s, p, i);
    }
  }

  /** Filtering by a predicate every element satisfies keeps the whole sequence. */
  lemma {:induction false} FilterKeepsAll<T>(s: seq<T>, p: T -> bool)
    requires forall x :: x in s ==> p(x)
    ensures Filter(s, p) == s
  {
    if s != [] {
      FilterKeepsAll(s[1..], p);
    }
  }

  /** Filtering by a predicate no element satisfies leaves nothing. */
  lemma {:induction false} FilterDropsAll<T>(s: seq<T>, p: T -> bool)
    requires forall x :: x in s ==> !p(x)
    ensures Filter(s, p) == []
  {
    if s != [] {
      FilterDropsAll(s[1..], p);
    }
  }

  /** Two predicates that agree on the elements of `s` filter it alike. */
  lemma {:induction false} FilterAgree<T>(s: seq<T>, p: T -> bool, q: T -> bool)
    requires forall x :: x in s ==> p(x) == q(x)
    ensures Filter(s, p) == Filter(s, q)
  {
    if s != [] {
      FilterAgree(s[1..], p, q);
    }
  }

  /** `s` is in non-decreasing order of `key`. */
  predicate SortedBy<T>(s: seq<T>, key: T -> int)
  {
    forall i, j :: 0 <= i < j < |s| ==> key(s[i]) <= key(s[j])
  }

  /** Inserts `x` before the first element whose key is not smaller, so that
      `x` precedes the elements whose key equals its own. */
  function Insert<T>(x: T, s: seq<T>, key: T -> int): (r: seq<T>)
    ensures |r| == |s| + 1
  {
    if s == [] || key(x) <= key(s[0]) then [x] + s
    else [s[0]] + Insert(x, s[1..], key)
  }

  /** `Insert` adds exactly `x`. */
  lemma {:induction false} InsertPermutes<T>(x: T, s: seq<T>, key: T -> int)
    ensures multiset(Insert(x, s, key)) == multiset(s) + multiset{x}
  {
    if s != [] && key(s[0]) < key(x) {
      InsertPermutes(x, s[1..], key);
      assert s == [s[0]] + s[1..];
    }
  }

  /** `Insert` keeps a sorted sequence sorted. */
  lemma {:induction false} InsertSorted<T>(x: T, s: seq<T>, key: T -> int)
    requires SortedBy(s, key)
    ensures SortedBy(Insert(x, s, key), key)
  {
    if s != [] && key(s[0]) < key(x) {
      var t := Insert(x, s[1..], key);
      InsertSorted(x, s[1..], key);
      InsertPermutes(x, s[1..], key);
      forall j | 0 <= j < |t| ensures key(s[0]) <= key(t[j]) {
        assert t[j] in multiset(t);
        if t[j] != x {
          assert t[j] in multiset(s[1..]);
          var i :| 0 <= i < |s[1..]| && s[1..][i] == t[j];
          assert s[i + 1] == t[j];
        }
      }
      PrependSorted(s[0], t, key);
    }
  }

  lemma PrependSorted<T>(h: T, t: seq<T>, key: T -> int)
    requires SortedBy(t, key)
    requires forall j :: 0 <= j < |t| ==> key(h) <= key(t[j])
    ensures SortedBy([h] + t, key)
  {
    var r := [h] + t;
    forall i, j | 0 <= i < j < |r| ensures key(r[i]) <= key(r[j]) {
      assert r[j] == t[j - 1];
      if i > 0 { assert r[i] == t[i - 1]; }
    }
  }

  /** Stable insertion sort in non-decreasing order of `key`. */
  function SortBy<T>(s: seq<T>, key: T -> int): (r: seq<T>)
    ensures |r| == |s|
    ensures SortedBy(r, key)
  {
    if s == [] then []
    else
      InsertSorted(s[0], SortBy(s[1..], key), key);
      Insert(s[0], SortBy(s[1..], key), key)
  }

  /** `SortBy` is a permutation. */
  lemma {:induction false} SortByPermutes<T>(s: seq<T>, key: T -> int)
    ensures multiset(SortBy(s, key)) == multiset(s)
  {
    if s != [] {
      SortByPermutes(s[1..], key);
      InsertPermutes(s[0], SortBy(s[1..], key), key);
      assert s == [s[0]] + s[1..];
    }
  }

  /** One step of `SortBy`: the head is inserted into the sorted tail. */
  lemma SortStep<T>(x: T, s: seq<T>, key: T -> int)
    ensures SortBy([x] + s, key) == Insert(x, SortBy(s, key), key)
  {
    assert ([x] + s)[1..] == s;
  }

  /** `x` goes in front of a first element whose key is not smaller. */
  lemma InsertFront<T>(x: T, y: T, t: seq<T>, key: T -> int)
    requires key(x) <= key(y)
    ensures Insert(x, [y] + t, key) == [x, y] + t
  {
  }

  /** `x` passes a first element whose key is smaller. */
  lemma InsertPast<T>(x: T, y: T, t: seq<T>, key: T -> int)
    requires key(y) < key(x)
    ensures Insert(x, [y] + t, key) == [y] + Insert(x, t, key)
  {
    assert ([y] + t)[1..] == t;
  }

  /** Sorting keeps any property every element has. */
  lemma SortByKeepsProperty<T>(s: seq<T>, key: T -> int, p: T -> bool)
    requires forall i :: 0 <= i < |s| ==> p(s[i])
    ensures forall i :: 0 <= i < |SortBy(s, key)| ==> p(SortBy(s, key)[i])
  {
    var r := SortBy(s, key);
    SortByPermutes(s, key);
    forall i | 0 <= i < |r| ensures p(r[i]) {
      assert r[i] in multiset(s);
      var k :| 0 <= k < |s| && s[k] == r[i];
    }
  }

  /** The elements of `s` whose key is `k`, in their order in `s`. */
  function WithKey<T>(s: seq<T>, key: T -> int, k: int): seq<T>
  {
    if s == [] then [] else (if key(s[0]) == k then [s[0]] else []) + WithKey(s[1..], key, k)
  }

  /** `r` is a stable sort of `s`: ordered by `key`, and for every key value the
      elements carrying it appear in `r` exactly as in `s`. */
  ghost predicate IsStableSortOf<T>(r: seq<T>, s: seq<T>, key: T -> int)
  {
    SortedBy(r, key) && forall k :: WithKey(r, key, k) == WithKey(s, key, k)
  }

  lemma {:induction false} InsertKeepsKeyOrder<T>(x: T, s: seq<T>, key: T -> int, k: int)
    ensures WithKey(Insert(x, s, key), key, k) ==
            (if key(x) == k then [x] else []) + WithKey(s, key, k)
  {
    if s == [] || key(x) <= key(s[0]) {
      assert ([x] + s)[1..] == s;
    } else {
      var t := Insert(x, s[1..], key);
      assert ([s[0]] + t)[1..] == t;
      InsertKeepsKeyOrder(x, s[1..], key, k);
      var rest := WithKey(s[1..], key, k);
      var head := if key(s[0]) == k then [s[0]] else [];
      assert WithKey(s, key, k) == head + rest;
      if key(x) == k {
        // s[0] has a smaller key, so only x can join the class of k
        assert head == [];
        assert WithKey([s[0]] + t, key, k) == WithKey(t, key, k);
      } else {
        assert WithKey(t, key, k) == rest;
        assert WithKey([s[0]] + t, key, k) == head + rest;
      }
    }
  }

  lemma {:induction false} SortByKeepsKeyOrder<T>(s: seq<T>, key: T -> int, k: int)
    ensures WithKey(SortBy(s, key), key, k) == WithKey(s, key, k)
  {
    if s != [] {
      SortByKeepsKeyOrder(s[1..], key, k);
      InsertKeepsKeyOrder(s[0], SortBy(s[1..], key), key, k);
    }
  }

  /** `SortBy` is a stable sort. */
  lemma SortByIsStableSort<T>(s: seq<T>, key: T -> int)
    ensures IsStableSortOf(SortBy(s, key), s, key)
  {
    forall k ensures WithKey(SortBy(s, key), key, k) == WithKey(s, key, k) {
      SortByKeepsKeyOrder(s, key, k);
    }
  }

  lemma {:induction false} WithKeyMember<T>(s: seq<T>, key: T -> int, x: T)
    requires x in s
    ensures x in WithKey(s, key, key(x))
  {
    if s[0] != x {
      WithKeyMember(s[1..], key, x);
    }
  }

  lemma {:induction false} WithKeyOnlyMembers<T>(s: seq<T>, key: T -> int, k: int, x: T)
    requires x in WithKey(s, key, k)
    ensures x in s
  {
    if s != [] && x != s[0] {
      WithKeyOnlyMembers(s[1..], key, k, x);
    }
  }

  /** Two sequences ordered by `key` that agree on the order of every key
      class are equal. */
  lemma {:induction false} SortedSameKeyOrderEqual<T>(a: seq<T>, b: seq<T>, key: T -> int)
    requires SortedBy(a, key) && SortedBy(b, key)
    requires forall k :: WithKey(a, key, k) == WithKey(b, key, k)
    ensures a == b
  {
    if a != [] {
      WithKeyMember(a, key, a[0]);
    }
    if b != [] {
      WithKeyMember(b, key, b[0]);
    }
    if a != [] && b != [] {
      var m := key(a[0]);
      WithKeyMember(b, key, b[0]);
      WithKeyOnlyMembers(a, key, key(b[0]), b[0]);
      WithKeyMember(a, key, a[0]);
      WithKeyOnlyMembers(b, key, m, a[0]);
      assert key(b[0]) == m;
      var wa, wb := WithKey(a, key, m), WithKey(b, key, m);
      assert wa == [a[0]] + WithKey(a[1..], key, m);
      assert wb == [b[0]] + WithKey(b[1..], key, m);
      assert a[0] == wa[0] == wb[0] == b[0];
      forall k ensures WithKey(a[1..], key, k) == WithKey(b[1..], key, k) {
        if k == m {
          assert WithKey(a[1..], key, k) == wa[1..];
          assert WithKey(b[1..], key, k) == wb[1..];
        } else {
          assert WithKey(a, key, k) == WithKey(a[1..], key, k);
          assert WithKey(b, key, k) == WithKey(b[1..], key, k);
        }
      }
      SortedSameKeyOrderEqual(a[1..], b[1..], key);
      assert a == [a[0]] + a[1..] && b == [b[0]] + b[1..];
    }
  }

  /** Any stable sort of `s` is `SortBy(s, key)`. */
  lemma StableSortUnique<T>(r: seq<T>, s: seq<T>, key: T -> int)
    requires IsStableSortOf(r, s, key)
    ensures r == SortBy(s, key)
  {
    SortByIsStableSort(s, key);
    SortedSameKeyOrderEqual(r, SortBy(s, key), key);
  }

  /** A prefix holds a part of the elements. */
  lemma PrefixSubMultiset<T>(s: seq<T>, n: nat)
    requires n <= |s|
    ensures multiset(s[..n]) <= multiset(s)
  {
    assert s == s[..n] + s[n..];
  }

  /** The first `n` elements of a sorted sequence are all at most every later
      element: what makes `sort(...).slice(0, n)` a top-n selection. */
  lemma SortedPrefixBound<T>(s: seq<T>, key: T -> int, n: nat, j: nat)
    requires SortedBy(s, key) && n <= j < |s|
    ensures forall i :: 0 <= i < n ==> key(s[i]) <= key(s[j])
  {
  }

  /** An element of a sorted sequence is either within its first `n` elements
      or at least as large as each of them. */
  lemma SortedPrefixDominates<T>(s: seq<T>, key: T -> int, n: nat, x: T)
    requires SortedBy(s, key) && n <= |s| && x in s
    ensures x in s[..n] || forall i :: 0 <= i < n ==> key(s[i]) <= key(x)
  {
    var k :| 0 <= k < |s| && s[k] == x;
    if k < n {
      assert s[..n][k] == x;
    } else {
      SortedPrefixBound(s, key, n, k);
    }
  }
}
