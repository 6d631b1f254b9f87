/** Sequence and collection helpers that model Python built-ins the
    analysis layer uses: list comprehensions with a condition, `s[:n]`
    slices, `list(some_set)`, `sorted(...)`, `list.sort(reverse=True)` and
    `Counter.most_common(n)`. */
module Seqs {
  import opened Wrappers

  /** `[x for x in s if p(x)]` */
  function Filter<T>(s: seq<T>, p: T -> bool): (r: seq<T>)
    ensures |r| <= |s|
    ensures forall i :: 0 <= i < |r| ==> p(r[i]) && r[i] in s
    ensures forall i :: 0 <= i < |s| && p(s[i]) ==> s[i] in r
  {
    if s == [] then []
    else if p(s[0]) then [s[0]] + Filter(s[1..], p)
    else Filter(s[1..], p)
  }

  lemma {:induction false} FilterAppend<T>(a: seq<T>, b: seq<T>, p: T -> bool)
    ensures Filter(a + b, p) == Filter(a, p) + Filter(b, p)
  {
    if a == [] {
      assert a + b == b;
    } else {
      assert (a + b)[1..] == a[1..] + b;
      FilterAppend(a[1..], b, p);
    }
  }

  /** Extending a prefix by one element extends its filtered image by that
      element exactly when it passes the test. */
  lemma FilterSnoc<T>(s: seq<T>, i: int, p: T -> bool)
    requires 0 <= i < |s|
    ensures p(s[i]) ==> Filter(s[..i + 1], p) == Filter(s[..i], p) + [s[i]]
    ensures !p(s[i]) ==> Filter(s[..i + 1], p) == Filter(s[..i], p)
  {
    assert s[..i + 1] == s[..i] + [s[i]];
    FilterAppend(s[..i], [s[i]], p);
    assert Filter([s[i]], p) == if p(s[i]) then [s[i]] else [];
    assert Filter(s[..i], p) + [] == Filter(s[..i], p);
  }

  /** Filtering keeps a sequence whose elements all pass, and empties one
      whose elements all fail. */
  lemma FilterAllOrNone<T>(s: seq<T>, p: T -> bool)
    ensures (forall i :: 0 <= i < |s| ==> p(s[i])) ==> Filter(s, p) == s
    ensures (forall i :: 0 <= i < |s| ==> !p(s[i])) ==> Filter(s, p) == []
  {
    if forall i :: 0 <= i < |s| ==> p(s[i]) {
      FilterAll(s, p);
    }
    if forall i :: 0 <= i < |s| ==> !p(s[i]) {
      FilterNone(s, p);
    }
  }

  lemma {:induction false} FilterAll<T>(s: seq<T>, p: T -> bool)
    requires forall i :: 0 <= i < |s| ==> p(s[i])
    ensures Filter(s, p) == s
  {
    if s != [] {
      assert forall i :: 1 <= i < |s| ==> s[1..][i - 1] == s[i];
      FilterAll(s[1..], p);
    }
  }

  lemma {:induction false} FilterNone<T>(s: seq<T>, p: T -> bool)
    requires forall i :: 0 <= i < |s| ==> !p(s[i])
    ensures Filter(s, p) == []
  {
    if s != [] {
      assert forall i :: 1 <= i < |s| ==> s[1..][i - 1] == s[i];
      FilterNone(s[1..], p);
    }
  }

  /** Filtering keeps every pairwise relation that held in order. */
  lemma {:induction false} FilterPairwise<T>(s: seq<T>, p: T -> bool, rel: (T, T) -> bool)
    requires forall i, j :: 0 <= i < j < |s| ==> rel(s[i], s[j])
    ensures forall i, j :: 0 <= i < j < |Filter(s, p)| ==> rel(Filter(s, p)[i], Filter(s, p)[j])
  {
    if s != [] {
      var tail := s[1..];
      assert forall i, j :: 0 <= i < j < |tail| ==> tail[i] == s[i + 1] && tail[j] == s[j + 1];
      FilterPairwise(tail, p, rel);
      if p(s[0]) {
        var f := Filter(s, p);
        var ft := Filter(tail, p);
        assert f == [s[0]] + ft;
        forall j | 1 <= j < |f| ensures rel(f[0], f[j]) {
          assert f[j] == ft[j - 1] && ft[j - 1] in tail;
          var k :| 0 <= k < |tail| && tail[k] == ft[j - 1];
          assert tail[k] == s[k + 1];
        }
      }
    }
  }

  /** Filtering keeps the elements distinct. */
  lemma FilterDistinct<T>(s: seq<T>, p: T -> bool)
    requires Distinct(s)
    ensures Distinct(Filter(s, p))
  {
    FilterPairwise(s, p, (a, b) => a != b);
  }

  /** A non-empty sequence is its prefix followed by its last element. */
  lemma InitLast<T>(s: seq<T>)
    requires s != []
    ensures s == s[..|s| - 1] + [s[|s| - 1]]
  {
  }

  /** `sum(1 for x in s if p(x))` */
  function Count<T>(s: seq<T>, p: T -> bool): nat {
    |Filter(s, p)|
  }

  function Min(a: int, b: int): int { if a <= b then a else b }
  function Max(a: int, b: int): int { if a >= b then a else b }

  /** Python's `s[:n]`: a negative `n` drops that many elements from the end. */
  function Take<T>(s: seq<T>, n: int): (r: seq<T>)
    ensures |r| == if n >= 0 then Min(n, |s|) else if |s| + n >= 0 then |s| + n else 0
    ensures r == s[..|r|]
  {
    if n >= |s| then s
    else if n >= 0 then s[..n]
    else if |s| + n >= 0 then s[..|s| + n]
    else []
  }

  predicate Distinct<T(==)>(s: seq<T>) {
    forall i, j :: 0 <= i < j < |s| ==> s[i] != s[j]
  }

  /** `list(s)` for a set: the elements, each once, in an order the model
      leaves unspecified (Python's set iteration order). */
  method SetToSeq<T(==)>(s: set<T>) returns (r: seq<T>)
    ensures Distinct(r) && |r| == |s|
    ensures forall x :: x in r <==> x in s
  {
    r := [];
    var rest := s;
    while rest != {}
      invariant Distinct(r)
      invariant forall x :: x in s <==> x in r || x in rest
      invariant forall x :: x in r ==> x !in rest
      invariant |r| + |rest| == |s|
      decreases |rest|
    {
      var x :| x in rest;
      r := r + [x];
      rest := rest - {x};
    }
  }

  // ---- ascending sort of a set of integers (`sorted(some_set)`) ----

  predicate StrictlyIncreasing(s: seq<int>) {
    forall i, j :: 0 <= i < j < |s| ==> s[i] < s[j]
  }

  /** Some element of a non-empty set. */
  lemma Pick<K>(s: set<K>) returns (y: K)
    requires s != {}
    ensures y in s
  {
    y :| y in s;
  }

  lemma {:induction false} MinExists(s: set<int>)
    requires s != {}
    ensures exists m :: m in s && forall x :: x in s ==> m <= x
  {
    var y := Pick(s);
    if s != {y} {
      MinExists(s - {y});
      var m :| m in s - {y} && forall x :: x in s - {y} ==> m <= x;
      var b := if y < m then y else m;
      forall x | x in s ensures b <= x {
        if x != y { assert x in s - {y}; }
      }
    } else {
      assert forall x :: x in s ==> y <= x;
    }
  }

  /** `sorted(s)` for a set of integers. */
  method SortedFromSet(s: set<int>) returns (r: seq<int>)
    ensures StrictlyIncreasing(r) && |r| == |s|
    ensures forall x :: x in r <==> x in s
  {
    r := [];
    var rest := s;
    while rest != {}
      invariant StrictlyIncreasing(r)
      invariant forall x :: x in s <==> x in r || x in rest
      invariant forall x, i :: x in rest && 0 <= i < |r| ==> r[i] < x
      invariant forall x :: x in r ==> x !in rest
      invariant |r| + |rest| == |s|
      decreases |rest|
    {
      MinExists(rest);
      var m :| m in rest && forall x :: x in rest ==> m <= x;
      r := r + [m];
      rest := rest - {m};
    }
  }

  // ---- descending stable sort (`list.sort(key=..., reverse=True)`) ----

  predicate SortedDesc<T>(s: seq<T>, key: T -> real) {
    forall i, j :: 0 <= i < j < |s| ==> key(s[i]) >= key(s[j])
  }

  /** Places `x` after every element whose key is at least its own, so that
      equal keys keep their original order as in Python's stable sort. */
  function InsertDesc<T>(x: T, s: seq<T>, key: T -> real): (r: seq<T>)
    requires SortedDesc(s, key)
    ensures multiset(r) == multiset(s) + multiset{x}
    ensures SortedDesc(r, key)
    ensures |r| == |s| + 1
  {
    if s == [] then [x]
    else if key(s[0]) >= key(x) then
      var t := InsertDesc(x, s[1..], key);
      assert s == [s[0]] + s[1..];
      BoundedByHead(t, s[1..], x, key, key(s[0]));
      SortedCons(s[0], t, key);
      [s[0]] + t
    else [x] + s
  }

  lemma SortedCons<T>(h: T, t: seq<T>, key: T -> real)
    requires SortedDesc(t, key)
    requires forall k :: 0 <= k < |t| ==> key(t[k]) <= key(h)
    ensures SortedDesc([h] + t, key)
  {
    var r := [h] + t;
    assert forall k :: 1 <= k < |r| ==> r[k] == t[k - 1];
  }

  /** Every key of a permutation of `rest + [x]` is at most a common bound `b`. */
  lemma BoundedByHead<T>(t: seq<T>, rest: seq<T>, x: T, key: T -> real, b: real)
    requires multiset(t) == multiset(rest) + multiset{x}
    requires forall k :: 0 <= k < |rest| ==> key(rest[k]) <= b
    requires key(x) <= b
    ensures forall k :: 0 <= k < |t| ==> key(t[k]) <= b
  {
    forall k | 0 <= k < |t| ensures key(t[k]) <= b {
      assert t[k] in multiset(t);
      if t[k] != x {
        assert t[k] in multiset(rest);
        var j :| 0 <= j < |rest| && rest[j] == t[k];
      }
    }
  }

  /** The stable descending sort: a permutation of `s` whose keys never increase. */
  function SortDesc<T>(s: seq<T>, key: T -> real): (r: seq<T>)
    ensures multiset(r) == multiset(s) && |r| == |s|
    ensures SortedDesc(r, key)
  {
    if s == [] then []
    else
      assert s == s[..|s| - 1] + [s[|s| - 1]];
      InsertDesc(s[|s| - 1], SortDesc(s[..|s| - 1], key), key)
  }

  // ---- `Counter.most_common(n)` ----

  lemma {:induction false} MaxKeyExists<K>(ks: set<K>, m: map<K, int>)
    requires ks != {} && ks <= m.Keys
    ensures exists k :: k in ks && forall j :: j in ks ==> m[j] <= m[k]
  {
    var y :| y in ks;
    if ks != {y} {
      MaxKeyExists(ks - {y}, m);
      var k :| k in ks - {y} && forall j :: j in ks - {y} ==> m[j] <= m[k];
      if m[y] > m[k] {
        assert forall j :: j in ks ==> m[j] <= m[y];
      } else {
        assert forall j :: j in ks ==> m[j] <= m[k];
      }
    } else {
      assert forall j :: j in ks ==> m[j] <= m[y];
    }
  }

  /** `Counter(counts).most_common(n)`: the `n` keys (all of them when
      fewer, none when `n <= 0`) with the largest counts, in non-increasing
      order of count; no key left out has a larger count than one chosen.
      Python breaks ties by insertion order, which the model leaves open. */
  method MostCommon<K(==)>(counts: map<K, int>, n: int) returns (top: seq<K>)
    ensures |top| == if n <= 0 then 0 else Min(n, |counts|)
    ensures Distinct(top)
    ensures forall i :: 0 <= i < |top| ==> top[i] in counts
    ensures forall i, j :: 0 <= i < j < |top| ==> counts[top[i]] >= counts[top[j]]
    ensures forall k, i :: k in counts && k !in top && 0 <= i < |top| ==> counts[k] <= counts[top[i]]
    ensures |top| < n ==> forall k :: k in counts ==> k in top
  {
    top := [];
    var rest := counts.Keys;
    while |top| < n && rest != {}
      invariant Distinct(top)
      invariant top == [] || |top| <= n
      invariant forall k :: k in counts <==> k in top || k in rest
      invariant forall k :: k in top ==> k !in rest
      invariant |top| + |rest| == |counts|
      invariant forall i, j :: 0 <= i < j < |top| ==> counts[top[i]] >= counts[top[j]]
      invariant forall k, i :: k in rest && 0 <= i < |top| ==> counts[k] <= counts[top[i]]
      decreases |rest|
    {
      MaxKeyExists(rest, counts);
      var k :| k in rest && forall j :: j in rest ==> counts[j] <= counts[k];
      top := top + [k];
      rest := rest - {k};
    }
  }

  /** `Counter(xs)`: each value of `xs` mapped to how often it occurs
      (`TallyCounts`). */
  function Tally<K(!new)>(xs: seq<K>): (t: map<K, int>)
    ensures forall x :: x in t <==> x in xs
    ensures forall x :: x in t ==> t[x] >= 1
  {
    if xs == [] then map[]
    else
      var init := xs[..|xs| - 1];
      var x := xs[|xs| - 1];
      Bump(Tally(init), x)
  }

  /** `counts[x] = counts.get(x, 0) + 1` */
  function Bump<K>(counts: map<K, int>, x: K): map<K, int> {
    counts[x := (if x in counts then counts[x] else 0) + 1]
  }

  /** The tally of a value is its number of occurrences. */
  lemma {:induction false} TallyCounts<K(!new)>(xs: seq<K>, x: K)
    ensures x in Tally(xs) ==> Tally(xs)[x] == multiset(xs)[x]
    ensures x !in Tally(xs) ==> multiset(xs)[x] == 0
  {
    if xs != [] {
      var init := xs[..|xs| - 1];
      assert xs == init + [xs[|xs| - 1]];
      TallyCounts(init, x);
    }
  }

  /** Counting one more occurrence. */
  lemma {:induction false} TallySnoc<K(!new)>(xs: seq<K>, x: K)
    ensures Tally(xs + [x]) == Bump(Tally(xs), x)
  {
    assert (xs + [x])[..|xs|] == xs;
  }

  /** Counting one more occurrence, for a sequence known to extend `xs` by `x`. */
  lemma TallyExtend<K(!new)>(xs: seq<K>, x: K, ys: seq<K>)
    requires ys == xs + [x]
    ensures Tally(ys) == Bump(Tally(xs), x)
  {
    TallySnoc(xs, x);
  }

  /** A property of every element survives a permutation. */
  lemma AllInPermutation<T>(a: seq<T>, b: seq<T>, p: T -> bool)
    requires multiset(a) == multiset(b)
    requires forall i :: 0 <= i < |b| ==> p(b[i])
    ensures forall i :: 0 <= i < |a| ==> p(a[i])
  {
    forall i | 0 <= i < |a|
      ensures p(a[i])
    {
      assert a[i] in multiset(b);
      var j :| 0 <= j < |b| && b[j] == a[i];
    }
  }

  /** Sorting and truncating keeps a property every element has. */
  lemma SortTakeKeeps<T>(s: seq<T>, key: T -> real, n: int, p: T -> bool)
    requires forall i :: 0 <= i < |s| ==> p(s[i])
    ensures forall i :: 0 <= i < |Take(SortDesc(s, key), n)| ==> p(Take(SortDesc(s, key), n)[i])
  {
    var sorted := SortDesc(s, key);
    AllInPermutation(sorted, s, p);
  }

  /** The first `n` of a descending sort are still in descending order. */
  lemma SortTakeSorted<T>(s: seq<T>, key: T -> real, n: int)
    ensures SortedDesc(Take(SortDesc(s, key), n), key)
    ensures n >= 0 ==> |Take(SortDesc(s, key), n)| <= n
  {
    var sorted := SortDesc(s, key);
    var r := Take(sorted, n);
    assert forall i :: 0 <= i < |r| ==> r[i] == sorted[i];
  }

  /** `[y for x in xs for y in f(x)]`: the images of the elements, concatenated in order. */
  function FlatMap<T, U>(xs: seq<T>, f: T -> seq<U>): seq<U> {
    if xs == [] then [] else FlatMap(xs[..|xs| - 1], f) + f(xs[|xs| - 1])
  }

  lemma FlatMapSnoc<T, U>(xs: seq<T>, i: int, f: T -> seq<U>)
    requires 0 <= i < |xs|
    ensures FlatMap(xs[..i + 1], f) == FlatMap(xs[..i], f) + f(xs[i])
  {
    assert xs[..i + 1][..i] == xs[..i];
  }

  /** A value is in the concatenation exactly when it is in some element's image. */
  lemma {:induction false} FlatMapMembers<T, U>(xs: seq<T>, f: T -> seq<U>, v: U)
    ensures v in FlatMap(xs, f) <==> exists i :: 0 <= i < |xs| && v in f(xs[i])
  {
    if xs != [] {
      var init := xs[..|xs| - 1];
      FlatMapMembers(init, f, v);
      if v in FlatMap(xs, f) && v !in f(xs[|xs| - 1]) {
        var i :| 0 <= i < |init| && v in f(init[i]);
        assert xs[i] == init[i];
      }
      if exists i :: 0 <= i < |xs| && v in f(xs[i]) {
        var i :| 0 <= i < |xs| && v in f(xs[i]);
        if i < |init| {
          assert init[i] == xs[i];
        }
      }
    }
  }

  /** Images of at most one element concatenate to no more than the input's length. */
  lemma {:induction false} FlatMapShort<T, U>(xs: seq<T>, f: T -> seq<U>)
    requires forall i :: 0 <= i < |xs| ==> |f(xs[i])| <= 1
    ensures |FlatMap(xs, f)| <= |xs|
  {
    if xs != [] {
      var init := xs[..|xs| - 1];
      assert forall i :: 0 <= i < |init| ==> init[i] == xs[i];
      FlatMapShort(init, f);
    }
  }

  /** `[f(x) for x in xs]` where any failure fails the whole list. */
  function AllSome<T, U>(xs: seq<T>, f: T -> Option<U>): Option<seq<U>> {
    if xs == [] then Some([])
    else
      var head := f(xs[0]);
      var rest := AllSome(xs[1..], f);
      if head.Some? && rest.Some? then Some([head.value] + rest.value) else None
  }

  /** The gathered list exists exactly when every element maps to a value. */
  lemma {:induction false} AllSomeAccepts<T, U>(xs: seq<T>, f: T -> Option<U>)
    ensures AllSome(xs, f).Some? <==> forall i :: 0 <= i < |xs| ==> f(xs[i]).Some?
  {
    if xs != [] {
      AllSomeAccepts(xs[1..], f);
      assert forall i :: 1 <= i < |xs| ==> xs[i] == xs[1..][i - 1];
    }
  }

  /** A gathered list holds each element's value, in order. */
  lemma {:induction false} AllSomeValues<T, U>(xs: seq<T>, f: T -> Option<U>)
    requires AllSome(xs, f).Some?
    ensures |AllSome(xs, f).value| == |xs|
    ensures forall i :: 0 <= i < |xs| ==> f(xs[i]).Some? && AllSome(xs, f).value[i] == f(xs[i]).value
  {
    if xs != [] {
      var rest := AllSome(xs[1..], f);
      assert rest.Some?;
      AllSomeValues(xs[1..], f);
      var r := AllSome(xs, f).value;
      assert r == [f(xs[0]).value] + rest.value;
      forall i | 1 <= i < |xs| ensures f(xs[i]).Some? && r[i] == f(xs[i]).value {
        assert r[i] == rest.value[i - 1];
        assert xs[i] == xs[1..][i - 1];
      }
    }
  }

  /** Appending an element that maps to a value appends that value. */
  lemma {:induction false} AllSomeSnoc<T, U>(xs: seq<T>, x: T, f: T -> Option<U>)
    requires AllSome(xs, f).Some? && f(x).Some?
    ensures AllSome(xs + [x], f) == Some(AllSome(xs, f).value + [f(x).value])
  {
    if xs == [] {
      assert xs + [x] == [x] && [x][1..] == [];
      assert AllSome([x], f) == Some([f(x).value] + []);
      assert [f(x).value] + [] == [] + [f(x).value];
    } else {
      var u := xs + [x];
      assert u[0] == xs[0] && u[1..] == xs[1..] + [x];
      var rest := AllSome(xs[1..], f);
      assert rest.Some?;
      AllSomeSnoc(xs[1..], x, f);
      var v := f(xs[0]).value;
      assert AllSome(u, f) == Some([v] + (rest.value + [f(x).value]));
      assert [v] + (rest.value + [f(x).value]) == ([v] + rest.value) + [f(x).value];
    }
  }

  function Sum(s: seq<int>): int {
    if s == [] then 0 else s[0] + Sum(s[1..])
  }

  /** The sum of `f` over a sequence, added from the left. */
  function SumOf<T>(xs: seq<T>, f: T -> real): real {
    if xs == [] then 0.0 else SumOf(xs[..|xs| - 1], f) + f(xs[|xs| - 1])
  }

  lemma {:induction false} SumOfAppend<T>(a: seq<T>, b: seq<T>, f: T -> real)
    ensures SumOf(a + b, f) == SumOf(a, f) + SumOf(b, f)
  {
    if b != [] {
      assert (a + b)[..|a + b| - 1] == a + b[..|b| - 1];
      SumOfAppend(a, b[..|b| - 1], f);
    } else {
      assert a + b == a;
    }
  }

  /** Terms between `lo` and `hi` give a sum between `|xs| * lo` and `|xs| * hi`. */
  lemma {:induction false} SumOfBounds<T>(xs: seq<T>, f: T -> real, lo: real, hi: real)
    requires forall i :: 0 <= i < |xs| ==> lo <= f(xs[i]) <= hi
    ensures |xs| as real * lo <= SumOf(xs, f) <= |xs| as real * hi
  {
    if xs != [] {
      var init := xs[..|xs| - 1];
      assert forall i :: 0 <= i < |init| ==> init[i] == xs[i];
      SumOfBounds(init, f, lo, hi);
      assert |xs| as real * lo == |init| as real * lo + lo;
      assert |xs| as real * hi == |init| as real * hi + hi;
    }
  }

  // ---- real arithmetic used by averages ----

  lemma ScaleReal(a: int, n: int)
    ensures (a * n) as real == a as real * n as real
  {
  }

  lemma DivLower(s: real, n: real, lo: real)
    requires n > 0.0 && lo * n <= s
    ensures lo <= s / n
  {
    assert s / n - lo == (s - lo * n) / n;
  }

  lemma DivUpper(s: real, n: real, hi: real)
    requires n > 0.0 && s <= hi * n
    ensures s / n <= hi
  {
    assert hi - s / n == (hi * n - s) / n;
  }

  /** A total between `lo * n` and `hi * n` has its mean between `lo` and `hi`. */
  lemma MeanBounds(sum: int, n: int, lo: int, hi: int)
    requires n > 0 && lo * n <= sum <= hi * n
    ensures lo as real <= sum as real / n as real <= hi as real
  {
    ScaleReal(lo, n);
    ScaleReal(hi, n);
    DivLower(sum as real, n as real, lo as real);
    DivUpper(sum as real, n as real, hi as real);
  }
}
