/** Sequence helpers shared by every aggregation: a stable descending sort by key
    (what `sort((a, b) => key(b) - key(a))` produces), a filter, sums and a maximum. */
module Seqs {

  /** `s` is non-increasing under `key`. */
  ghost predicate SortedDesc<T>(s: seq<T>, key: T -> real)
  {
    forall i, j :: 0 <= i < j < |s| ==> key(s[i]) >= key(s[j])
  }

  /** Inserts `x` in front of the first element whose key is not larger than its own. */
  function InsertDesc<T>(x: T, s: seq<T>, key: T -> real): (r: seq<T>)
    requires SortedDesc(s, key)
    ensures |r| == |s| + 1
    ensures multiset(r) == multiset(s) + multiset{x}
    ensures SortedDesc(r, key)
  {
    if s == [] then [x]
    else if key(s[0]) > key(x) then
      var rest := InsertDesc(x, s[1..], key);
      assert s == [s[0]] + s[1..];
      InsertHead(s[0], x, s[1..], rest, key);
      assert multiset([s[0]] + rest) == multiset{s[0]} + multiset(s[1..]) + multiset{x};
      [s[0]] + rest
    else
      InsertFront(x, s, key);
      [x] + s
  }

  lemma InsertFront<T>(x: T, s: seq<T>, key: T -> real)
    requires SortedDesc(s, key) && s != [] && key(x) >= key(s[0])
    ensures SortedDesc([x] + s, key)
  {
    var r := [x] + s;
    forall i, j | 0 <= i < j < |r| ensures key(r[i]) >= key(r[j]) {
      assert r[j] == s[j - 1];
      if i > 0 { assert r[i] == s[i - 1]; }
      else if j > 1 { assert key(s[0]) >= key(s[j - 1]); }
    }
  }

  lemma InsertHead<T>(h: T, x: T, tail: seq<T>, rest: seq<T>, key: T -> real)
    requires SortedDesc([h] + tail, key) && SortedDesc(rest, key)
    requires key(h) > key(x)
    requires multiset(rest) == multiset(tail) + multiset{x}
    ensures SortedDesc([h] + rest, key)
  {
    forall k | 0 <= k < |rest| ensures key(h) >= key(rest[k]) {
      assert rest[k] in multiset(rest);
      if rest[k] != x {
        var j :| 0 <= j < |tail| && tail[j] == rest[k];
        assert ([h] + tail)[0] == h && ([h] + tail)[j + 1] == tail[j];
      }
    }
    var r := [h] + rest;
    forall i, j | 0 <= i < j < |r| ensures key(r[i]) >= key(r[j]) {
      if i > 0 { assert r[i] == rest[i - 1] && r[j] == rest[j - 1]; }
      else { assert r[j] == rest[j - 1]; }
    }
  }

  /** Insertion sort, descending by `key`; elements with equal keys keep their order. */
  function SortDesc<T>(s: seq<T>, key: T -> real): (r: seq<T>)
    ensures |r| == |s|
    ensures multiset(r) == multiset(s)
    ensures SortedDesc(r, key)
  {
    if s == [] then []
    else
      assert s == [s[0]] + s[1..];
      InsertDesc(s[0], SortDesc(s[1..], key), key)
  }

  /** No two elements of `s` share a `name`. */
  ghost predicate DistinctBy<T, K>(s: seq<T>, name: T -> K)
  {
    forall i, j :: 0 <= i < j < |s| ==> name(s[i]) != name(s[j])
  }

  lemma {:induction false} InsertDistinct<T, K>(x: T, s: seq<T>, key: T -> real, name: T -> K)
    requires SortedDesc(s, key) && DistinctBy(s, name)
    requires forall k :: 0 <= k < |s| ==> name(s[k]) != name(x)
    ensures DistinctBy(InsertDesc(x, s, key), name)
  {
    var r := InsertDesc(x, s, key);
    if s != [] {
      if key(s[0]) > key(x) {
        var rest := InsertDesc(x, s[1..], key);
        InsertDistinct(x, s[1..], key, name);
        assert r == [s[0]] + rest;
        forall k | 0 <= k < |rest| ensures name(rest[k]) != name(s[0]) {
          assert rest[k] in multiset(rest);
          if rest[k] != x {
            assert rest[k] in multiset(s[1..]);
            var j :| 0 <= j < |s[1..]| && s[1..][j] == rest[k];
            assert s[j + 1] == rest[k];
          }
        }
        forall i, j | 0 <= i < j < |r| ensures name(r[i]) != name(r[j]) {
          assert r[j] == rest[j - 1];
          if i > 0 { assert r[i] == rest[i - 1]; }
        }
      } else {
        assert r == [x] + s;
        forall i, j | 0 <= i < j < |r| ensures name(r[i]) != name(r[j]) {
          assert r[j] == s[j - 1];
          if i > 0 { assert r[i] == s[i - 1]; }
        }
      }
    }
  }

  /** Sorting lists each element once more, so names that were distinct stay distinct. */
  lemma {:induction false} SortDistinct<T, K>(s: seq<T>, key: T -> real, name: T -> K)
    requires DistinctBy(s, name)
    ensures DistinctBy(SortDesc(s, key), name)
  {
    if s != [] {
      var tail := SortDesc(s[1..], key);
      SortDistinct(s[1..], key, name);
      forall k | 0 <= k < |tail| ensures name(tail[k]) != name(s[0]) {
        assert tail[k] in multiset(s[1..]);
        var j :| 0 <= j < |s[1..]| && s[1..][j] == tail[k];
        assert s[j + 1] == tail[k];
      }
      InsertDistinct(s[0], tail, key, name);
    }
  }

  /** Filtering keeps names distinct. */
  lemma {:induction false} FilterDistinct<T(!new), K>(s: seq<T>, p: T -> bool, name: T -> K)
    requires DistinctBy(s, name)
    ensures DistinctBy(Filter(s, p), name)
  {
    if s != [] {
      var rest := Filter(s[1..], p);
      FilterDistinct(s[1..], p, name);
      if p(s[0]) {
        var r := [s[0]] + rest;
        forall k | 0 <= k < |rest| ensures name(rest[k]) != name(s[0]) {
          var j :| 0 <= j < |s[1..]| && s[1..][j] == rest[k];
          assert s[j + 1] == rest[k];
        }
        forall i, j | 0 <= i < j < |r| ensures name(r[i]) != name(r[j]) {
          assert r[j] == rest[j - 1];
          if i > 0 { assert r[i] == rest[i - 1]; }
        }
      }
    }
  }

  /** The head of a sorted sequence has the largest key. */
  lemma HeadIsMax<T>(s: seq<T>, key: T -> real)
    requires SortedDesc(s, key) && |s| > 0
    ensures forall x :: x in s ==> key(x) <= key(s[0])
  {
    forall x | x in s ensures key(x) <= key(s[0]) {
      var k :| 0 <= k < |s| && s[k] == x;
    }
  }

  /** The head of the sorted sequence is an element with the largest key. */
  lemma SortHeadIsMax<T>(s: seq<T>, key: T -> real)
    requires |s| > 0
    ensures SortDesc(s, key)[0] in s
    ensures forall x :: x in s ==> key(x) <= key(SortDesc(s, key)[0])
  {
    var r := SortDesc(s, key);
    HeadIsMax(r, key);
    assert r[0] in multiset(s);
    forall x | x in s ensures key(x) <= key(r[0]) {
      assert x in multiset(r);
    }
  }

  /** The elements of `s` that satisfy `p`, in their order. */
  function Filter<T(!new)>(s: seq<T>, p: T -> bool): (r: seq<T>)
    ensures |r| <= |s|
    ensures forall k :: 0 <= k < |r| ==> r[k] in s && p(r[k])
    ensures forall k :: 0 <= k < |s| && p(s[k]) ==> s[k] in r
    ensures multiset(r) <= multiset(s)
  {
    if s == [] then []
    else
      assert s == [s[0]] + s[1..];
      if p(s[0]) then [s[0]] + Filter(s[1..], p) else Filter(s[1..], p)
  }

  /** Every element that passes is kept as often as it occurs, and no other is. */
  lemma {:induction false} FilterCounts<T(!new)>(s: seq<T>, p: T -> bool)
    ensures forall x :: multiset(Filter(s, p))[x] == if p(x) then multiset(s)[x] else 0
  {
    if s != [] {
      FilterCounts(s[1..], p);
      assert s == [s[0]] + s[1..];
    }
  }

  /** Filtering works piece by piece, so the kept elements stay in their order. */
  lemma {:induction false} FilterAppend<T(!new)>(a: seq<T>, b: seq<T>, p: T -> bool)
    ensures Filter(a + b, p) == Filter(a, p) + Filter(b, p)
  {
    if a == [] {
      assert a + b == b;
    } else {
      assert (a + b)[0] == a[0] && (a + b)[1..] == a[1..] + b;
      FilterAppend(a[1..], b, p);
    }
  }

  lemma {:induction false} FilterKeepsSorted<T(!new)>(s: seq<T>, p: T -> bool, key: T -> real)
    requires SortedDesc(s, key)
    ensures SortedDesc(Filter(s, p), key)
  {
    if s != [] {
      FilterKeepsSorted(s[1..], p, key);
      var rest := Filter(s[1..], p);
      assert forall k :: 0 <= k < |rest| ==> rest[k] in s[1..];
    }
  }

  /** `findIndex`/`find`: the index of the first element satisfying `p`, or -1. */
  function FindFirst<T>(s: seq<T>, p: T -> bool): (r: int)
    ensures -1 <= r < |s|
    ensures r >= 0 ==> p(s[r]) && forall j :: 0 <= j < r ==> !p(s[j])
    ensures r == -1 ==> forall j :: 0 <= j < |s| ==> !p(s[j])
  {
    if s == [] then -1
    else if p(s[0]) then 0
    else
      var r := FindFirst(s[1..], p);
      assert forall j :: 1 <= j < |s| ==> s[j] == s[1..][j - 1];
      if r < 0 then -1 else r + 1
  }

  /** The first element satisfying `p` is found. */
  lemma FindFirstAt<T>(s: seq<T>, p: T -> bool, j: nat)
    requires j < |s| && p(s[j])
    requires forall k :: 0 <= k < j ==> !p(s[k])
    ensures FindFirst(s, p) == j
  {
  }

  /** Sum of `f` over the elements of `s`. */
  function SumBy<T>(s: seq<T>, f: T -> real): real
  {
    if s == [] then 0.0 else f(s[0]) + SumBy(s[1..], f)
  }

  lemma {:induction false} SumByConcat<T>(a: seq<T>, b: seq<T>, f: T -> real)
    ensures SumBy(a + b, f) == SumBy(a, f) + SumBy(b, f)
  {
    if a != [] {
      assert (a + b)[0] == a[0] && (a + b)[1..] == a[1..] + b;
      SumByConcat(a[1..], b, f);
    } else {
      assert a + b == b;
    }
  }

  /** Reordering a sequence does not change its sum. */
  lemma {:induction false} SumByPermutation<T>(s: seq<T>, t: seq<T>, f: T -> real)
    requires multiset(s) == multiset(t)
    ensures SumBy(s, f) == SumBy(t, f)
    decreases |s|
  {
    if s != [] {
      assert s[0] in multiset(s);
      var k :| 0 <= k < |t| && t[k] == s[0];
      var rest := t[..k] + t[k + 1..];
      RemoveAt(t, k);
      SumByRemoveAt(t, k, f);
      assert s == [s[0]] + s[1..];
      assert multiset(s[1..]) == multiset(s) - multiset{s[0]};
      SumByPermutation(s[1..], rest, f);
    }
  }

  lemma RemoveAt<T>(t: seq<T>, k: nat)
    requires k < |t|
    ensures multiset(t[..k] + t[k + 1..]) == multiset(t) - multiset{t[k]}
  {
    assert t == t[..k] + [t[k]] + t[k + 1..];
  }

  lemma SumByRemoveAt<T>(t: seq<T>, k: nat, f: T -> real)
    requires k < |t|
    ensures SumBy(t, f) == f(t[k]) + SumBy(t[..k] + t[k + 1..], f)
  {
    assert t == t[..k] + ([t[k]] + t[k + 1..]);
    SumByConcat(t[..k], [t[k]] + t[k + 1..], f);
    SumByConcat(t[..k], t[k + 1..], f);
    assert ([t[k]] + t[k + 1..])[1..] == t[k + 1..];
  }

  /** Sum of a sequence of counts. */
  function Sum(s: seq<int>): int
  {
    if s == [] then 0 else s[0] + Sum(s[1..])
  }

  lemma {:induction false} SumBump(s: seq<int>, i: nat)
    requires i < |s|
    ensures Sum(s[i := s[i] + 1]) == Sum(s) + 1
  {
    if i > 0 {
      assert s[i := s[i] + 1][1..] == s[1..][i - 1 := s[i] + 1];
      SumBump(s[1..], i - 1);
    }
  }

  lemma {:induction false} SumConcat(a: seq<int>, b: seq<int>)
    ensures Sum(a + b) == Sum(a) + Sum(b)
  {
    if a != [] {
      assert (a + b)[0] == a[0] && (a + b)[1..] == a[1..] + b;
      SumConcat(a[1..], b);
    } else {
      assert a + b == b;
    }
  }

  /** `Math.max(...s, floor)`: the largest element of `s`, or `floor` when that is larger. */
  function MaxOr(s: seq<int>, floor: int): (m: int)
    ensures m >= floor
    ensures forall k :: 0 <= k < |s| ==> s[k] <= m
    ensures m == floor || m in s
  {
    if s == [] then floor
    else
      var rest := MaxOr(s[1..], floor);
      assert forall k :: 1 <= k < |s| ==> s[k] == s[1..][k - 1];
      if s[0] > rest then s[0] else rest
  }

  /** A sequence of `n` zeros (`new Array(n).fill(0)`). */
  function Zeros(n: nat): (z: seq<int>)
    ensures |z| == n && Sum(z) == 0
    ensures forall k :: 0 <= k < n ==> z[k] == 0
  {
    if n == 0 then [] else assert ([0] + Zeros(n - 1))[1..] == Zeros(n - 1); [0] + Zeros(n - 1)
  }
}
