/**
 * The list operations the modelled code uses: slicing `xs[:n]`, order
 * preserving filters and de-duplication, and Python's stable
 * `sorted(xs, key=..., reverse=True)`.
 */
module Lists {
  import opened Wrappers

  /** Python's `xs[:n]` for any integer `n` (a negative `n` counts from the end). */
  function Take<T>(xs: seq<T>, n: int): (r: seq<T>)
    ensures n >= 0 ==> |r| == if n < |xs| then n else |xs|
    ensures n < 0 ==> |r| == if |xs| + n < 0 then 0 else |xs| + n
    ensures r == xs[..|r|]
  {
    if n >= 0 then (if n < |xs| then xs[..n] else xs)
    else if |xs| + n < 0 then []
    else xs[..|xs| + n]
  }

  /** A sequence is its three pieces cut at `i` and `j`. */
  lemma CutThree<T>(s: seq<T>, i: nat, j: nat)
    requires i <= j <= |s|
    ensures s == s[..i] + s[i..j] + s[j..]
  {
    assert s[..j] == s[..i] + s[i..j];
    assert s == s[..j] + s[j..];
  }

  /** No element occurs twice. */
  ghost predicate Distinct<T>(s: seq<T>) {
    forall i, j :: 0 <= i < j < |s| ==> s[i] != s[j]
  }

  /** `[x for x in xs if p(x)]`. */
  function Filter<T>(xs: seq<T>, p: T -> bool): (r: seq<T>)
    ensures |r| <= |xs|
    ensures forall k :: 0 <= k < |r| ==> p(r[k])
    decreases |xs|
  {
    if xs == [] then []
    else
      var r := Filter(xs[..|xs| - 1], p);
      assert xs == xs[..|xs| - 1] + [xs[|xs| - 1]];
      if p(xs[|xs| - 1]) then r + [xs[|xs| - 1]] else r
  }

  lemma FilterSnoc<T>(xs: seq<T>, x: T, p: T -> bool)
    ensures Filter(xs + [x], p) == Filter(xs, p) + (if p(x) then [x] else [])
  {
    assert (xs + [x])[..|xs|] == xs;
  }

  lemma {:induction false} FilterCons<T>(x: T, xs: seq<T>, p: T -> bool)
    ensures Filter([x] + xs, p) == (if p(x) then [x] else []) + Filter(xs, p)
    decreases |xs|
  {
    if xs != [] {
      var ys := [x] + xs;
      assert ys[..|ys| - 1] == [x] + xs[..|xs| - 1];
      assert ys[|ys| - 1] == xs[|xs| - 1];
      FilterCons(x, xs[..|xs| - 1], p);
    }
  }

  lemma {:induction false} FilterAppend<T>(xs: seq<T>, ys: seq<T>, p: T -> bool)
    ensures Filter(xs + ys, p) == Filter(xs, p) + Filter(ys, p)
    decreases |ys|
  {
    if ys == [] {
      assert xs + ys == xs;
    } else {
      var zs := xs + ys;
      assert zs[..|zs| - 1] == xs + ys[..|ys| - 1];
      assert zs[|zs| - 1] == ys[|ys| - 1];
      FilterAppend(xs, ys[..|ys| - 1], p);
    }
  }

  /** Every element of `xs` that satisfies `p` is kept. */
  lemma {:induction false} FilterKeeps<T>(xs: seq<T>, p: T -> bool, x: T)
    ensures x in Filter(xs, p) <==> x in xs && p(x)
    decreases |xs|
  {
    if xs != [] {
      FilterKeeps(xs[..|xs| - 1], p, x);
      assert xs == xs[..|xs| - 1] + [xs[|xs| - 1]];
    }
  }

  /** `[y for x in xs for y in f(x)]`: the pieces of each element, in order. */
  function FlatMap<A, B>(xs: seq<A>, f: A -> seq<B>): (r: seq<B>)
    decreases |xs|
  {
    if xs == [] then []
    else FlatMap(xs[..|xs| - 1], f) + f(xs[|xs| - 1])
  }

  lemma {:induction false} FlatMapAppend<A, B>(xs: seq<A>, ys: seq<A>, f: A -> seq<B>)
    ensures FlatMap(xs + ys, f) == FlatMap(xs, f) + FlatMap(ys, f)
    decreases |ys|
  {
    if ys == [] {
      assert xs + ys == xs;
    } else {
      var zs := xs + ys;
      assert zs[..|zs| - 1] == xs + ys[..|ys| - 1];
      assert zs[|zs| - 1] == ys[|ys| - 1];
      FlatMapAppend(xs, ys[..|ys| - 1], f);
    }
  }

  lemma FlatMapOne<A, B>(x: A, f: A -> seq<B>)
    ensures FlatMap([x], f) == f(x)
  {
    assert [x][..0] == [];
  }

  /** `[f(x) for x in xs]`. */
  function Map<A, B>(xs: seq<A>, f: A -> B): (r: seq<B>)
    ensures |r| == |xs|
    ensures forall k :: 0 <= k < |xs| ==> r[k] == f(xs[k])
    decreases |xs|
  {
    if xs == [] then []
    else
      var init := Map(xs[..|xs| - 1], f);
      assert forall k :: 0 <= k < |xs| - 1 ==> xs[..|xs| - 1][k] == xs[k];
      init + [f(xs[|xs| - 1])]
  }

  lemma {:induction false} MapSnoc<A, B>(xs: seq<A>, x: A, f: A -> B)
    ensures Map(xs + [x], f) == Map(xs, f) + [f(x)]
  {
    assert (xs + [x])[..|xs|] == xs;
  }

  /** Mapping then filtering one more element adds its image when that passes. */
  lemma MapFilterStep<A, B>(xs: seq<A>, i: nat, f: A -> B, p: B -> bool)
    requires i < |xs|
    ensures Filter(Map(xs[..i + 1], f), p) == Filter(Map(xs[..i], f), p) + (if p(f(xs[i])) then [f(xs[i])] else [])
  {
    assert xs[..i + 1] == xs[..i] + [xs[i]];
    MapSnoc(xs[..i], xs[i], f);
    FilterSnoc(Map(xs[..i], f), f(xs[i]), p);
  }

  /**
   * Filtering by two predicates that never hold together keeps, between
   * them, exactly what filtering by either keeps.
   */
  lemma {:induction false} FilterDisjoint<T>(xs: seq<T>, p: T -> bool, q: T -> bool, either: T -> bool)
    requires forall k :: 0 <= k < |xs| ==> !(p(xs[k]) && q(xs[k])) && (either(xs[k]) <==> p(xs[k]) || q(xs[k]))
    ensures multiset(Filter(xs, p)) + multiset(Filter(xs, q)) == multiset(Filter(xs, either))
    decreases |xs|
  {
    if xs != [] {
      FilterDisjoint(xs[..|xs| - 1], p, q, either);
    }
  }

  /** Nothing satisfies `p`: nothing is kept. */
  lemma {:induction false} FilterNone<T>(xs: seq<T>, p: T -> bool)
    requires forall k :: 0 <= k < |xs| ==> !p(xs[k])
    ensures Filter(xs, p) == []
    decreases |xs|
  {
    if xs != [] {
      FilterNone(xs[..|xs| - 1], p);
    }
  }

  /** Everything satisfies `p`: everything is kept. */
  lemma {:induction false} FilterAll<T>(xs: seq<T>, p: T -> bool)
    requires forall k :: 0 <= k < |xs| ==> p(xs[k])
    ensures Filter(xs, p) == xs
    decreases |xs|
  {
    if xs != [] {
      FilterAll(xs[..|xs| - 1], p);
      assert xs == xs[..|xs| - 1] + [xs[|xs| - 1]];
    }
  }

  /** Index of the first occurrence of `x` in `xs`. */
  function IndexOf<T(==)>(xs: seq<T>, x: T): (i: nat)
    requires x in xs
    ensures i < |xs| && xs[i] == x
    ensures forall k :: 0 <= k < i ==> xs[k] != x
  {
    if xs[0] == x then 0 else 1 + IndexOf(xs[1..], x)
  }

  lemma {:induction false} IndexOfPrefix<T>(xs: seq<T>, n: nat, x: T)
    requires n <= |xs| && x in xs[..n]
    ensures IndexOf(xs, x) == IndexOf(xs[..n], x)
  {
    var i := IndexOf(xs[..n], x);
    assert xs[i] == x;
    forall k | 0 <= k < i ensures xs[k] != x {
      assert xs[k] == xs[..n][k];
    }
  }

  /**
   * Order-preserving de-duplication: the loop that keeps a `seen` set and
   * appends each value the first time it appears.
   */
  function Dedup<T(==)>(xs: seq<T>): (r: seq<T>)
    ensures forall k :: 0 <= k < |r| ==> r[k] in xs
    ensures forall k :: 0 <= k < |xs| ==> xs[k] in r
    ensures Distinct(r)
    ensures |r| <= |xs|
    decreases |xs|
  {
    if xs == [] then []
    else
      var d := Dedup(xs[..|xs| - 1]);
      var x := xs[|xs| - 1];
      assert xs == xs[..|xs| - 1] + [x];
      if x in d then d else d + [x]
  }

  /** The kept values appear in the order of their first occurrence in `xs`. */
  lemma {:induction false} DedupFirstSeenOrder<T>(xs: seq<T>, i: nat, j: nat)
    requires i < j < |Dedup(xs)|
    ensures IndexOf(xs, Dedup(xs)[i]) < IndexOf(xs, Dedup(xs)[j])
    decreases |xs|
  {
    var n := |xs| - 1;
    var pre := xs[..n];
    var d := Dedup(pre);
    var r := Dedup(xs);
    var x := xs[n];
    assert xs == pre + [x];
    assert r[i] in d by {
      assert r == d || r == d + [x];
    }
    IndexOfPrefix(xs, n, r[i]);
    if j < |d| {
      assert r[i] == d[i] && r[j] == d[j];
      DedupFirstSeenOrder(pre, i, j);
      IndexOfPrefix(xs, n, r[j]);
    } else {
      assert r == d + [x] && r[j] == x && x !in pre;
      assert IndexOf(xs, x) == n by {
        forall k | 0 <= k < n ensures xs[k] != x {
          assert xs[k] == pre[k];
        }
      }
    }
  }

  /** Keys do not increase along the sequence. */
  ghost predicate SortedDesc<T>(xs: seq<T>, key: T -> real) {
    forall i, j :: 0 <= i < j < |xs| ==> key(xs[i]) >= key(xs[j])
  }

  /**
   * Insert `x`, which came earlier in the input than everything in `xs`,
   * in front of the first element whose key does not exceed its own.
   */
  function Insert<T>(x: T, xs: seq<T>, key: T -> real): (r: seq<T>)
    ensures |r| == |xs| + 1
    ensures multiset(r) == multiset(xs) + multiset{x}
    decreases |xs|
  {
    if xs == [] || key(xs[0]) <= key(x) then [x] + xs
    else
      assert xs == [xs[0]] + xs[1..];
      [xs[0]] + Insert(x, xs[1..], key)
  }

  /** Python's `sorted(xs, key=key, reverse=True)`: descending and stable. */
  function SortDesc<T>(xs: seq<T>, key: T -> real): (r: seq<T>)
    ensures |r| == |xs|
    ensures multiset(r) == multiset(xs)
    decreases |xs|
  {
    if xs == [] then []
    else
      assert xs == [xs[0]] + xs[1..];
      Insert(xs[0], SortDesc(xs[1..], key), key)
  }

  lemma {:induction false} InsertSorted<T>(x: T, xs: seq<T>, key: T -> real)
    requires SortedDesc(xs, key)
    ensures SortedDesc(Insert(x, xs, key), key)
    decreases |xs|
  {
    if xs != [] && key(xs[0]) > key(x) {
      var t := Insert(x, xs[1..], key);
      InsertSorted(x, xs[1..], key);
      var r := [xs[0]] + t;
      forall j | 0 < j < |r| ensures key(r[0]) >= key(r[j]) {
        assert r[j] in multiset(t);
        assert r[j] in multiset(xs[1..]) + multiset{x};
        if r[j] in multiset(xs[1..]) {
          var k :| 0 <= k < |xs[1..]| && xs[1..][k] == r[j];
          assert xs[1 + k] == r[j];
        }
      }
    }
  }

  /** The result of the sort is in non-increasing key order. */
  lemma {:induction false} SortDescSorted<T>(xs: seq<T>, key: T -> real)
    ensures SortedDesc(SortDesc(xs, key), key)
    decreases |xs|
  {
    if xs != [] {
      SortDescSorted(xs[1..], key);
      InsertSorted(xs[0], SortDesc(xs[1..], key), key);
    }
  }

  /** A cut of a sorted sequence is sorted. */
  lemma TakeSorted<T>(xs: seq<T>, key: T -> real, n: int)
    requires SortedDesc(xs, key)
    ensures SortedDesc(Take(xs, n), key)
  {
    var r := Take(xs, n);
    assert forall i, j :: 0 <= i < j < |r| ==> r[i] == xs[i] && r[j] == xs[j];
  }

  /** Every element of a cut of the sorted sequence comes from the input. */
  lemma TopOfSortedIn<T>(xs: seq<T>, key: T -> real, n: int, k: nat)
    requires k < |Take(SortDesc(xs, key), n)|
    ensures Take(SortDesc(xs, key), n)[k] in xs
  {
    var sorted := SortDesc(xs, key);
    assert Take(sorted, n)[k] == sorted[k];
    assert sorted[k] in multiset(sorted);
  }

  /** The elements whose key is `k`. */
  function SameKey<T, K(==)>(key: T -> K, k: K): T -> bool {
    y => key(y) == k
  }

  lemma {:induction false} InsertSameKey<T>(x: T, xs: seq<T>, key: T -> real, k: real)
    ensures Filter(Insert(x, xs, key), SameKey(key, k))
         == (if key(x) == k then [x] else []) + Filter(xs, SameKey(key, k))
    decreases |xs|
  {
    var p := SameKey(key, k);
    if xs == [] || key(xs[0]) <= key(x) {
      FilterCons(x, xs, p);
    } else {
      var y, rest := xs[0], xs[1..];
      var t := Insert(x, rest, key);
      assert Insert(x, xs, key) == [y] + t;
      assert xs == [y] + rest;
      var hx: seq<T> := if key(x) == k then [x] else [];
      var hy: seq<T> := if p(y) then [y] else [];
      InsertSameKey(x, rest, key, k);
      assert Filter(t, p) == hx + Filter(rest, p);
      FilterCons(y, t, p);
      FilterCons(y, rest, p);
      assert Filter([y] + t, p) == hy + Filter(t, p);
      assert Filter(xs, p) == hy + Filter(rest, p);
      if p(y) {
        assert hx == [];
      } else {
        assert hy == [];
      }
      EmptySwap(hy, hx, Filter(rest, p));
    }
  }

  /** A second write to the same key overrides the first. */
  lemma MapUpdateTwice<K, V>(m: map<K, V>, k: K, a: V, b: V)
    ensures m[k := a][k := b] == m[k := b]
  {
  }

  /** Two fronts of which one is empty can be swapped. */
  lemma EmptySwap<T>(a: seq<T>, b: seq<T>, c: seq<T>)
    requires a == [] || b == []
    ensures a + (b + c) == b + (a + c)
  {
    if a == [] {
      assert a + (b + c) == b + c;
    } else {
      assert b + (a + c) == a + c;
    }
  }

  /**
   * Stability: for every key value, the elements with that key keep their
   * relative input order.
   */
  lemma {:induction false} SortDescStable<T>(xs: seq<T>, key: T -> real, k: real)
    ensures Filter(SortDesc(xs, key), SameKey(key, k)) == Filter(xs, SameKey(key, k))
    decreases |xs|
  {
    if xs != [] {
      SortDescStable(xs[1..], key, k);
      InsertSameKey(xs[0], SortDesc(xs[1..], key), key, k);
      FilterCons(xs[0], xs[1..], SameKey(key, k));
      assert xs == [xs[0]] + xs[1..];
    }
  }

  /** The index of the first element satisfying `p`, if any. */
  function FirstWhere<T>(xs: seq<T>, p: T -> bool): (r: Option<nat>)
    ensures r.Some? ==> r.value < |xs| && p(xs[r.value])
    ensures r.Some? ==> forall k :: 0 <= k < r.value ==> !p(xs[k])
    ensures r.None? ==> forall k :: 0 <= k < |xs| ==> !p(xs[k])
    decreases |xs|
  {
    if xs == [] then None
    else if p(xs[0]) then Some(0)
    else
      var rest := FirstWhere(xs[1..], p);
      assert forall k :: 1 <= k < |xs| ==> xs[k] == xs[1..][k - 1];
      match rest
      case None => None
      case Some(k) => Some(k + 1)
  }

  /** The scan `for i, x in enumerate(xs): if p(x): return i`, falling through to `None`. */
  method FindFirst<T>(xs: seq<T>, p: T -> bool) returns (r: Option<nat>)
    ensures r == FirstWhere(xs, p)
  {
    var j := 0;
    while j < |xs|
      invariant 0 <= j <= |xs|
      invariant forall k :: 0 <= k < j ==> !p(xs[k])
    {
      if p(xs[j]) {
        FirstWhereIs(xs, p, j);
        return Some(j);
      }
      j := j + 1;
    }
    return None;
  }

  /** The first element satisfying `p` is found. */
  lemma FirstWhereIs<T>(xs: seq<T>, p: T -> bool, j: nat)
    requires j < |xs| && p(xs[j])
    requires forall k :: 0 <= k < j ==> !p(xs[k])
    ensures FirstWhere(xs, p) == Some(j)
  {
  }
}
