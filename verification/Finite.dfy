/**
 Finite sets as the store's tables see them: sums and counts that do not depend on
 the order in which a Go map is iterated, and sorting by a strict total order.
 */
module Finite {

  // ---------- sums ----------

  /** The sum of f over s, adding the elements in an unspecified order. */
  ghost function Sum<T(!new)>(s: set<T>, f: T -> real): real
  {
    if s == {} then 0.0 else var x :| x in s; f(x) + Sum(s - {x}, f)
  }

  /** Any element may be added last: the unspecified order is irrelevant. */
  lemma {:induction false} SumRemove<T(!new)>(s: set<T>, x: T, f: T -> real)
    requires x in s
    ensures Sum(s, f) == f(x) + Sum(s - {x}, f)
    decreases |s|
  {
    var y :| y in s && Sum(s, f) == f(y) + Sum(s - {y}, f);
    if y != x {
      SumRemove(s - {y}, x, f);
      SumRemove(s - {x}, y, f);
      assert s - {y} - {x} == s - {x} - {y};
    }
  }

  lemma {:induction false} SumAdd<T(!new)>(s: set<T>, x: T, f: T -> real)
    requires x !in s
    ensures Sum(s + {x}, f) == Sum(s, f) + f(x)
  {
    SumRemove(s + {x}, x, f);
    assert s + {x} - {x} == s;
  }

  lemma {:induction false} SumUnion<T(!new)>(a: set<T>, b: set<T>, f: T -> real)
    requires a !! b
    ensures Sum(a + b, f) == Sum(a, f) + Sum(b, f)
    decreases |b|
  {
    if b == {} {
      assert a + b == a;
    } else {
      var x :| x in b;
      SumRemove(b, x, f);
      SumRemove(a + b, x, f);
      assert a + b - {x} == a + (b - {x});
      SumUnion(a, b - {x}, f);
    }
  }

  lemma {:induction false} SumZero<T(!new)>(s: set<T>, f: T -> real)
    requires forall x :: x in s ==> f(x) == 0.0
    ensures Sum(s, f) == 0.0
    decreases |s|
  {
    if s != {} {
      var x :| x in s;
      SumRemove(s, x, f);
      SumZero(s - {x}, f);
    }
  }

  ghost function Image<A(!new), B(!new)>(s: set<A>, h: A -> B): set<B> {
    set x | x in s :: h(x)
  }

  /** Summing over the image of an injective function. */
  lemma {:induction false} SumImage<A(!new), B(!new)>(s: set<A>, h: A -> B, f: A -> real, g: B -> real)
    requires forall x, y :: x in s && y in s && h(x) == h(y) ==> x == y
    requires forall x :: x in s ==> g(h(x)) == f(x)
    ensures Sum(Image(s, h), g) == Sum(s, f)
    decreases |s|
  {
    var image := Image(s, h);
    if s == {} {
      assert image == {};
    } else {
      var x :| x in s;
      var rest := s - {x};
      var restImage := Image(rest, h);
      assert h(x) !in restImage;
      assert image == restImage + {h(x)};
      SumImage(rest, h, f, g);
      SumAdd(restImage, h(x), g);
      SumRemove(s, x, f);
    }
  }

  /** The elements whose key is k. */
  ghost function Group<T(!new), K(!new)>(s: set<T>, key: T -> K, k: K): set<T> {
    set x | x in s && key(x) == k
  }

  /** Grouping by a key: the group sums add up to the whole, whatever the groups are. */
  lemma {:induction false} SumGroups<T(!new), K(!new)>(s: set<T>, keys: set<K>, key: T -> K, f: T -> real, g: K -> real)
    requires forall x :: x in s ==> key(x) in keys
    requires forall k :: k in keys ==> g(k) == Sum(Group(s, key, k), f)
    ensures Sum(keys, g) == Sum(s, f)
    decreases |keys|
  {
    if keys == {} {
      assert s == {};
    } else {
      var k :| k in keys;
      var group := Group(s, key, k);
      var rest := s - group;
      forall j | j in keys - {k} ensures g(j) == Sum(Group(rest, key, j), f) {
        assert Group(rest, key, j) == Group(s, key, j);
      }
      assert forall x :: x in rest ==> key(x) in keys - {k};
      SumGroups(rest, keys - {k}, key, f, g);
      SumRemove(keys, k, g);
      SumUnion(group, rest, f);
      assert group + rest == s;
    }
  }

  // ---------- counts ----------

  /** An injective function preserves the number of elements. */
  lemma {:induction false} CountImage<A(!new), B(!new)>(s: set<A>, h: A -> B)
    requires forall x, y :: x in s && y in s && h(x) == h(y) ==> x == y
    ensures |Image(s, h)| == |s|
    decreases |s|
  {
    var image := Image(s, h);
    if s == {} {
      assert image == {};
    } else {
      var x :| x in s;
      var rest := s - {x};
      var restImage := Image(rest, h);
      assert image == restImage + {h(x)};
      CountImage(rest, h);
    }
  }

  /** A sum of ones is a count. */
  lemma {:induction false} SumOnes<T(!new)>(s: set<T>, f: T -> real)
    requires forall x :: x in s ==> f(x) == 1.0
    ensures Sum(s, f) == |s| as real
    decreases |s|
  {
    if s != {} {
      var x :| x in s;
      SumRemove(s, x, f);
      SumOnes(s - {x}, f);
    }
  }

  // ---------- sorting ----------

  ghost predicate StrictOrder<T(!new)>(less: (T, T) -> bool) {
    && (forall x :: !less(x, x))
    && (forall x, y, z :: less(x, y) && less(y, z) ==> less(x, z))
  }

  ghost predicate TotalOn<T(!new)>(xs: set<T>, less: (T, T) -> bool) {
    forall x, y :: x in xs && y in xs && x != y ==> less(x, y) || less(y, x)
  }

  predicate Ascending<T>(s: seq<T>, less: (T, T) -> bool) {
    forall i, j :: 0 <= i < j < |s| ==> less(s[i], s[j])
  }

  ghost function Elements<T(!new)>(s: seq<T>): set<T> {
    set x | x in s
  }

  /** s lists every element of xs, in ascending order and therefore once. */
  ghost predicate SortedListing<T(!new)>(s: seq<T>, xs: set<T>, less: (T, T) -> bool) {
    && Elements(s) == xs
    && Ascending(s, less)
  }

  /** There is only one sorted listing of a set, whatever order its elements arrived in. */
  lemma {:induction false} SortedListingUnique<T(!new)>(s: seq<T>, t: seq<T>, xs: set<T>, less: (T, T) -> bool)
    requires StrictOrder(less)
    requires SortedListing(s, xs, less) && SortedListing(t, xs, less)
    ensures s == t
    decreases |s|
  {
    if s == [] {
      assert forall i :: 0 <= i < |t| ==> t[i] in Elements(t);
    } else {
      assert s[0] in xs;
      assert t != [];
      assert t[0] in xs;
      FirstIsLeast(s, t, xs, less);
      var ys := xs - {s[0]};
      TailListing(s, xs, less);
      TailListing(t, xs, less);
      SortedListingUnique(s[1..], t[1..], ys, less);
      assert s == [s[0]] + s[1..] && t == [t[0]] + t[1..];
    }
  }

  lemma HeadIsLeast<T(!new)>(s: seq<T>, xs: set<T>, less: (T, T) -> bool, x: T)
    requires SortedListing(s, xs, less) && x in xs
    ensures s != [] && (x == s[0] || less(s[0], x))
  {
    assert x in s;
    var i :| 0 <= i < |s| && s[i] == x;
  }

  lemma FirstIsLeast<T(!new)>(s: seq<T>, t: seq<T>, xs: set<T>, less: (T, T) -> bool)
    requires StrictOrder(less)
    requires SortedListing(s, xs, less) && SortedListing(t, xs, less)
    requires s != [] && t != []
    ensures s[0] == t[0]
  {
    assert s[0] in xs && t[0] in xs;
    HeadIsLeast(s, xs, less, t[0]);
    HeadIsLeast(t, xs, less, s[0]);
  }

  lemma TailListing<T(!new)>(s: seq<T>, xs: set<T>, less: (T, T) -> bool)
    requires StrictOrder(less)
    requires SortedListing(s, xs, less) && s != []
    ensures SortedListing(s[1..], xs - {s[0]}, less)
  {
    forall x ensures x in s[1..] <==> x in xs - {s[0]} {
      if x in xs - {s[0]} {
        assert x in s;
        var i :| 0 <= i < |s| && s[i] == x;
        assert s[1..][i - 1] == x;
      }
      if x in s[1..] {
        var i :| 0 <= i < |s| - 1 && s[1..][i] == x;
        assert s[i + 1] == x;
        assert less(s[0], s[i + 1]);
        assert x in Elements(s);
      }
    }
    assert Elements(s[1..]) == xs - {s[0]};
  }

  /**
   The library sort: an insertion sort. Only its contract matters, that it returns
   the one sorted listing of the elements it was given.
   */
  method Sort<T(!new)>(xs: seq<T>, less: (T, T) -> bool) returns (s: seq<T>)
    requires StrictOrder(less) && TotalOn(Elements(xs), less)
    requires forall i, j :: 0 <= i < j < |xs| ==> xs[i] != xs[j]
    ensures SortedListing(s, Elements(xs), less)
  {
    s := [];
    for n := 0 to |xs|
      invariant Elements(s) == Elements(xs[..n])
      invariant Ascending(s, less)
    {
      var x := xs[n];
      assert x !in xs[..n];
      forall y | y in s ensures y in Elements(xs) {
        assert y in Elements(s);
        assert y in xs[..n];
      }
      assert x !in Elements(s);
      var k := 0;
      while k < |s| && less(s[k], x)
        invariant 0 <= k <= |s|
        invariant forall i :: 0 <= i < k ==> less(s[i], x)
      {
        k := k + 1;
      }
      InsertAscending(s, x, k, Elements(xs), less);
      ghost var before := s;
      s := s[..k] + [x] + s[k..];
      InsertElements(before, x, k);
      assert xs[..n + 1] == xs[..n] + [x];
      assert Elements(xs[..n + 1]) == Elements(xs[..n]) + {x};
    }
    assert xs[..|xs|] == xs;
  }

  lemma InsertElements<T(!new)>(s: seq<T>, x: T, k: nat)
    requires k <= |s|
    ensures Elements(s[..k] + [x] + s[k..]) == Elements(s) + {x}
  {
    assert s == s[..k] + s[k..];
    forall y ensures y in s[..k] + [x] + s[k..] <==> y in s || y == x {}
  }

  lemma InsertAscending<T(!new)>(s: seq<T>, x: T, k: nat, universe: set<T>, less: (T, T) -> bool)
    requires StrictOrder(less) && TotalOn(universe, less)
    requires k <= |s| && x in universe && x !in s
    requires forall y :: y in s ==> y in universe
    requires Ascending(s, less)
    requires forall i :: 0 <= i < k ==> less(s[i], x)
    requires k < |s| ==> !less(s[k], x)
    ensures Ascending(s[..k] + [x] + s[k..], less)
  {
    var r := s[..k] + [x] + s[k..];
    forall j | k <= j < |s| ensures less(x, s[j]) {
      assert s[k] in s;
      assert less(x, s[k]);
      if k < j { assert less(s[k], s[j]); }
    }
    forall i, j | 0 <= i < j < |r| ensures less(r[i], r[j]) {
      var a := if i < k then i else i - 1;
      var b := if j < k then j else j - 1;
      if i != k && j != k { assert r[i] == s[a] && r[j] == s[b]; }
    }
  }

  // ---------- text order ----------

  /** Go's < on strings: byte-wise lexicographic. */
  predicate LexLess(a: string, b: string) {
    if b == [] then false
    else if a == [] then true
    else a[0] < b[0] || (a[0] == b[0] && LexLess(a[1..], b[1..]))
  }

  lemma {:induction false} LexTotal(a: string, b: string)
    ensures a != b <==> LexLess(a, b) || LexLess(b, a)
    ensures !(LexLess(a, b) && LexLess(b, a))
    decreases |a|
  {
    if a != [] && b != [] {
      LexTotal(a[1..], b[1..]);
      assert a == [a[0]] + a[1..] && b == [b[0]] + b[1..];
    }
  }

  lemma {:induction false} LexTransitive(a: string, b: string, c: string)
    requires LexLess(a, b) && LexLess(b, c)
    ensures LexLess(a, c)
    decreases |a|
  {
    if a != [] && a[0] == b[0] == c[0] {
      LexTransitive(a[1..], b[1..], c[1..]);
    }
  }

  /** Go's sort keys: compare the number, then break ties on the text. */
  predicate KeyLess(n: int, a: string, m: int, b: string) {
    n < m || (n == m && LexLess(a, b))
  }

  lemma KeyLessStrict(n: int, a: string, m: int, b: string, k: int, c: string)
    ensures !KeyLess(n, a, n, a)
    ensures KeyLess(n, a, m, b) && KeyLess(m, b, k, c) ==> KeyLess(n, a, k, c)
    ensures a != b ==> KeyLess(n, a, m, b) || KeyLess(m, b, n, a)
  {
    LexTotal(a, a);
    LexTotal(a, b);
    if KeyLess(n, a, m, b) && KeyLess(m, b, k, c) && n == m == k { LexTransitive(a, b, c); }
  }
}
