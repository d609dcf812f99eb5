/** Stable sorting by a caller-supplied order, as the Go program's slices are sorted. */
module Sorting {

  /** `less` is a strict weak order: what `sort.Sort` and `sort.SliceStable` ask of their caller. */
  ghost predicate StrictWeak<T(!new)>(less: (T, T) -> bool) {
    && (forall x, y :: less(x, y) ==> !less(y, x))
    && (forall x, y, z :: less(x, z) ==> less(x, y) || less(y, z))
  }

  ghost predicate Sorted<T>(s: seq<T>, less: (T, T) -> bool) {
    forall i, j :: 0 <= i < j < |s| ==> !less(s[j], s[i])
  }

  ghost predicate Distinct<T>(s: seq<T>) {
    forall i, j :: 0 <= i < j < |s| ==> s[i] != s[j]
  }

  /** Order first by `major`, and where it does not decide by `minor`. */
  function Lex<T>(major: (T, T) -> bool, minor: (T, T) -> bool): (T, T) -> bool {
    (x, y) => major(x, y) || (!major(y, x) && minor(x, y))
  }

  /** `x` moved leftwards past the elements of `s` that it precedes. */
  function Insert<T>(s: seq<T>, x: T, less: (T, T) -> bool): seq<T> {
    if s == [] || !less(x, s[|s| - 1]) then s + [x]
    else Insert(s[..|s| - 1], x, less) + [s[|s| - 1]]
  }

  function StableSort<T>(s: seq<T>, less: (T, T) -> bool): seq<T> {
    if s == [] then [] else Insert(StableSort(s[..|s| - 1], less), s[|s| - 1], less)
  }

  lemma {:induction false} InsertPermutes<T>(s: seq<T>, x: T, less: (T, T) -> bool)
    ensures multiset(Insert(s, x, less)) == multiset(s + [x])
  {
    if s != [] && less(x, s[|s| - 1]) {
      var n := |s| - 1;
      InsertPermutes(s[..n], x, less);
      assert s == s[..n] + [s[n]];
    }
  }

  lemma {:induction false} StableSortPermutes<T>(s: seq<T>, less: (T, T) -> bool)
    ensures multiset(StableSort(s, less)) == multiset(s)
  {
    if s != [] {
      var n := |s| - 1;
      StableSortPermutes(s[..n], less);
      InsertPermutes(StableSort(s[..n], less), s[n], less);
      assert s == s[..n] + [s[n]];
    }
  }

  /** Membership follows the multiset. */
  lemma SameElements<T>(s: seq<T>, t: seq<T>)
    requires multiset(s) == multiset(t)
    ensures |s| == |t|
    ensures forall x :: x in s <==> x in t
  {
    assert |multiset(s)| == |s| && |multiset(t)| == |t|;
    assert forall x :: x in s <==> x in multiset(s);
    assert forall x :: x in t <==> x in multiset(t);
  }

  /** The heart of stability: a later element goes behind every earlier one it ties with, so an
      insertion keeps `s` sorted by `major` with ties in `minor` order. */
  lemma {:induction false} InsertLex<T(!new)>(s: seq<T>, x: T, major: (T, T) -> bool, minor: (T, T) -> bool)
    requires StrictWeak(major)
    requires Sorted(s, Lex(major, minor))
    requires forall y :: y in s ==> !minor(x, y)
    ensures Sorted(Insert(s, x, major), Lex(major, minor))
  {
    hide Sorted, Insert, StrictWeak;
    var less := Lex(major, minor);
    InsertStep(s, x, major);
    var n := |s| - 1;
    if n >= 0 && major(x, s[n]) {
      var rest := Insert(s[..n], x, major);
      SortedParts(s, less);
      InsertLex(s[..n], x, major, minor);
      InsertPermutes(s[..n], x, major);
      SameElements(rest, s[..n] + [x]);
      forall i | 0 <= i < |rest| ensures !less(s[n], rest[i]) {
        assert rest[i] in s[..n] + [x];
        Asymmetric(x, s[n], major);
      }
      SortedSnoc(rest, s[n], less);
    } else {
      forall i | 0 <= i < |s| ensures !less(x, s[i]) {
        SortedParts(s, less);
        Between(x, s[n], s[i], major);
      }
      SortedSnoc(s, x, less);
    }
  }

  lemma InsertStep<T>(s: seq<T>, x: T, less: (T, T) -> bool)
    ensures Insert(s, x, less) == if s == []
            || !less(x, s[|s| - 1]) then s + [x] else Insert(s[..|s| - 1], x, less) + [s[|s| - 1]]
  {
  }

  lemma SortedParts<T>(s: seq<T>, less: (T, T) -> bool)
    requires s != [] && Sorted(s, less)
    ensures Sorted(s[..|s| - 1], less) && forall i :: 0 <= i < |s| - 1 ==> !less(s[|s| - 1], s[i])
  {
  }

  lemma Asymmetric<T(!new)>(x: T, y: T, less: (T, T) -> bool)
    requires StrictWeak(less) && less(x, y)
    ensures !less(y, x)
  {
  }

  lemma Between<T(!new)>(x: T, y: T, z: T, less: (T, T) -> bool)
    requires StrictWeak(less) && !less(x, y) && (y == z || !less(y, z))
    ensures !less(x, z)
  {
  }

  lemma SortedSnoc<T>(s: seq<T>, x: T, less: (T, T) -> bool)
    requires Sorted(s, less) && forall i :: 0 <= i < |s| ==> !less(x, s[i])
    ensures Sorted(s + [x], less)
  {
  }

  /** A stable sort by `major` of a sequence already sorted by `minor` is sorted by both. */
  lemma {:induction false} StableSortLex<T(!new)>(s: seq<T>, major: (T, T) -> bool, minor: (T, T) -> bool)
    requires StrictWeak(major)
    requires Sorted(s, minor)
    ensures Sorted(StableSort(s, major), Lex(major, minor))
  {
    if s != [] {
      var n := |s| - 1;
      StableSortLex(s[..n], major, minor);
      StableSortPermutes(s[..n], major);
      SameElements(StableSort(s[..n], major), s[..n]);
      InsertLex(StableSort(s[..n], major), s[n], major, minor);
    }
  }

  lemma StableSortSorted<T(!new)>(s: seq<T>, less: (T, T) -> bool)
    requires StrictWeak(less)
    ensures Sorted(StableSort(s, less), less)
  {
    var any := (x, y) => false;
    StableSortLex(s, less, any);
    var r := StableSort(s, less);
    forall i, j | 0 <= i < j < |r| ensures !less(r[j], r[i]) {
      assert !Lex(less, any)(r[j], r[i]);
    }
  }

  ghost predicate Ties<T>(x: T, y: T, less: (T, T) -> bool) {
    !less(x, y) && !less(y, x)
  }

  lemma TiesTransitive<T(!new)>(x: T, y: T, z: T, less: (T, T) -> bool)
    requires StrictWeak(less) && Ties(x, y, less) && Ties(y, z, less)
    ensures Ties(x, z, less)
  {
  }

  function Without<T>(t: seq<T>, j: nat): seq<T>
    requires j < |t|
  {
    t[..j] + t[j + 1..]
  }

  lemma WithoutMultiset<T>(t: seq<T>, j: nat)
    requires j < |t|
    ensures multiset(Without(t, j)) == multiset(t) - multiset{t[j]}
  {
    assert t == t[..j] + [t[j]] + t[j + 1..];
  }

  /** In a sorted sequence everything up to an element that ties with the first is one tie. */
  lemma LeadingTie<T(!new)>(t: seq<T>, i: nat, j: nat, less: (T, T) -> bool)
    requires StrictWeak(less) && Sorted(t, less)
    requires 0 < i <= j < |t| && !less(t[0], t[j])
    ensures Ties(t[i - 1], t[i], less)
  {
    assert !less(t[i], t[i - 1]);
    assert i < j ==> !less(t[j], t[i]);
    assert i - 1 > 0 ==> !less(t[i - 1], t[0]);
  }

  lemma WithoutSorted<T>(t: seq<T>, j: nat, less: (T, T) -> bool)
    requires j < |t| && Sorted(t, less)
    ensures Sorted(Without(t, j), less)
  {
  }

  /** Putting the removed element back: position `i` of `s` against position `i` of `t`. */
  lemma PointwiseStep<T(!new)>(s: seq<T>, t: seq<T>, i: nat, j: nat, less: (T, T) -> bool)
    requires StrictWeak(less) && Sorted(t, less)
    requires |s| == |t| && i < |s| && j < |t|
    requires t[j] == s[0] && !less(t[0], s[0])
    requires i > 0 ==> Ties(s[i], Without(t, j)[i - 1], less)
    ensures Ties(s[i], t[i], less)
  {
    if i == 0 {
      assert j > 0 ==> !less(t[j], t[0]);
    } else if i <= j {
      LeadingTie(t, i, j, less);
      TiesTransitive(s[i], t[i - 1], t[i], less);
    }
  }

  /** Two sorted arrangements of the same elements agree, position by position, up to ties. */
  lemma {:induction false} SortedPointwise<T(!new)>(s: seq<T>, t: seq<T>, less: (T, T) -> bool)
    requires StrictWeak(less)
    requires multiset(s) == multiset(t)
    requires Sorted(s, less) && Sorted(t, less)
    ensures |s| == |t|
    ensures forall i :: 0 <= i < |s| ==> Ties(s[i], t[i], less)
  {
    SameElements(s, t);
    if s != [] {
      var j := FirstIn(s, t, less);
      WithoutMultiset(s, 0);
      WithoutMultiset(t, j);
      WithoutSorted(t, j, less);
      WithoutSorted(s, 0, less);
      assert Without(s, 0) == s[1..];
      SortedPointwise(s[1..], Without(t, j), less);
      forall i | 0 <= i < |s| ensures Ties(s[i], t[i], less) {
        if i > 0 { assert Ties(s[1..][i - 1], Without(t, j)[i - 1], less); }
        PointwiseStep(s, t, i, j, less);
      }
    }
  }

  lemma FirstIn<T(!new)>(s: seq<T>, t: seq<T>, less: (T, T) -> bool) returns (j: nat)
    requires StrictWeak(less) && Sorted(s, less) && s != []
    requires |s| == |t| && forall x :: x in s <==> x in t
    ensures j < |t| && t[j] == s[0] && !less(t[0], s[0])
  {
    assert s[0] in t && t[0] in s;
    j :| 0 <= j < |t| && t[j] == s[0];
  }

  /** When the order decides every pair of distinct elements there is only one arrangement. */
  lemma SortedUnique<T(!new)>(s: seq<T>, t: seq<T>, less: (T, T) -> bool)
    requires StrictWeak(less)
    requires multiset(s) == multiset(t)
    requires Sorted(s, less) && Sorted(t, less)
    requires forall x, y :: x in s && y in s && x != y ==> less(x, y) || less(y, x)
    ensures s == t
  {
    SortedPointwise(s, t, less);
    SameElements(s, t);
    forall i | 0 <= i < |s| ensures s[i] == t[i] {
      assert s[i] in s && t[i] in t;
    }
  }

  lemma {:induction false} DistinctCounts<T>(s: seq<T>, x: T)
    requires Distinct(s)
    ensures multiset(s)[x] <= 1
  {
    if s != [] {
      var n := |s| - 1;
      assert s == s[..n] + [s[n]];
      DistinctCounts(s[..n], x);
      if s[n] == x {
        assert forall i :: 0 <= i < n ==> s[i] != x;
        assert x !in s[..n];
        assert x !in multiset(s[..n]);
      }
    }
  }

  lemma DistinctMultisets<T(!new)>(p: seq<T>, q: seq<T>)
    requires Distinct(p) && Distinct(q)
    requires forall x :: x in p <==> x in q
    ensures multiset(p) == multiset(q)
  {
    forall x ensures multiset(p)[x] == multiset(q)[x] {
      DistinctCounts(p, x);
      DistinctCounts(q, x);
      assert x in multiset(p) <==> x in p;
      assert x in multiset(q) <==> x in q;
    }
  }

  lemma DistinctPermutes<T>(s: seq<T>, t: seq<T>)
    requires Distinct(s) && multiset(s) == multiset(t)
    ensures Distinct(t)
  {
    forall i, j | 0 <= i < j < |t| ensures t[i] != t[j] {
      DistinctCounts(s, t[i]);
      assert t == t[..i] + [t[i]] + t[i + 1..j] + [t[j]] + t[j + 1..];
    }
  }

  lemma LexIsStrictWeak<T(!new)>(major: (T, T) -> bool, minor: (T, T) -> bool)
    requires StrictWeak(major) && StrictWeak(minor)
    ensures StrictWeak(Lex(major, minor))
  {
    var less := Lex(major, minor);
    forall x, y, z | less(x, z) ensures less(x, y) || less(y, z) {
      assert major(x, z) ==> major(x, y) || major(y, z);
      assert minor(x, z) ==> minor(x, y) || minor(y, z);
    }
  }

  lemma LexDecides<T(!new)>(x: T, y: T, major: (T, T) -> bool, minor: (T, T) -> bool)
    requires minor(x, y) || minor(y, x)
    ensures Lex(major, minor)(x, y) || Lex(major, minor)(y, x)
  {
  }

  /** Sorting a sorted sequence leaves it alone. */
  lemma {:induction false} SortedIsKept<T>(s: seq<T>, less: (T, T) -> bool)
    requires Sorted(s, less)
    ensures StableSort(s, less) == s
  {
    hide StableSort, Insert;
    if s == [] {
      StableSortStep(s, 0, less);
      assert s[..0] == s;
    } else {
      var n := |s| - 1;
      SortedIsKept(s[..n], less);
      assert s == s[..n + 1] && s == s[..n] + [s[n]];
      StableSortStep(s, n, less);
      InsertStep(s[..n], s[n], less);
      assert n > 0 ==> !less(s[n], s[..n][n - 1]);
    }
  }

  /** Where the insertion stops. */
  lemma {:induction false} InsertPlaces<T>(s: seq<T>, x: T, j: nat, less: (T, T) -> bool)
    requires j <= |s| && (j == 0 || !less(x, s[j - 1]))
    requires forall k :: j <= k < |s| ==> less(x, s[k])
    ensures Insert(s, x, less) == s[..j] + [x] + s[j..]
  {
    if j < |s| {
      var n := |s| - 1;
      InsertPlaces(s[..n], x, j, less);
      assert s[..n][..j] == s[..j] && s[..n][j..] + [s[n]] == s[j..];
    }
  }

  /** One insertion: the element at `i` is swapped leftwards while it precedes its neighbour. */
  method SwapDown<T>(a: array<T>, i: nat, less: (T, T) -> bool)
    requires i < a.Length
    modifies a
    ensures a[..i + 1] == Insert(old(a[..i]), old(a[i]), less)
    ensures a[i + 1..] == old(a[i + 1..])
  {
    hide Insert;
    ghost var s, x := a[..i], a[i];
    var j := i;
    while j > 0 && less(a[j], a[j - 1])
      invariant 0 <= j <= i
      invariant a[j] == x
      invariant forall k :: 0 <= k < j ==> a[k] == s[k]
      invariant forall k :: j < k <= i ==> a[k] == s[k - 1]
      invariant forall k :: j <= k < i ==> less(x, s[k])
      invariant forall k :: i < k < a.Length ==> a[k] == old(a[k])
    {
      a[j], a[j - 1] := a[j - 1], a[j];
      j := j - 1;
    }
    InsertPlaces(s, x, j, less);
    assert a[..i + 1] == s[..j] + [x] + s[j..];
  }

  /** `sort.SliceStable`, on the array itself. */
  method SliceStable<T>(a: array<T>, less: (T, T) -> bool)
    modifies a
    ensures a[..] == StableSort(old(a[..]), less)
  {
    hide Insert, StableSort;
    ghost var was := a[..];
    StableSortStep(was, 0, less);
    for i := 0 to a.Length
      invariant a[..i] == StableSort(was[..i], less)
      invariant forall k :: i <= k < a.Length ==> a[k] == was[k]
    {
      StableSortStep(was, i, less);
      ghost var tail := a[i + 1..];
      SwapDown(a, i, less);
      assert forall k :: i < k < a.Length ==> a[k] == tail[k - i - 1];
    }
    assert a[..] == a[..a.Length] && was == was[..a.Length];
  }

  lemma StableSortStep<T>(s: seq<T>, i: nat, less: (T, T) -> bool)
    requires i <= |s|
    ensures StableSort(s[..0], less) == []
    ensures i < |s| ==> StableSort(s[..i + 1], less) == Insert(StableSort(s[..i], less), s[i], less)
  {
    if i < |s| { assert s[..i + 1][..i] == s[..i]; }
  }

  /* ---------- the orders a set can be read in ---------- */

  /** `order` reads the keys, once each. */
  ghost predicate Orders<T(!new)>(order: seq<T>, keys: set<T>) {
    Distinct(order) && forall k :: k in order <==> k in keys
  }

  lemma OrderNone<T(!new)>()
    ensures Orders<T>([], {})
  {
  }

  lemma OrderMore<T(!new)>(order: seq<T>, keys: set<T>, k: T)
    requires Orders(order, keys) && k !in keys
    ensures Orders(order + [k], keys + {k})
  {
    forall j ensures j in order + [k] <==> j in keys + {k} {
      assert j in order + [k] <==> j in order || j == k;
    }
  }

  lemma {:induction false} OrderExists<T(!new)>(keys: set<T>) returns (order: seq<T>)
    ensures Orders(order, keys)
    decreases keys
  {
    if keys == {} {
      order := [];
    } else {
      var k :| k in keys;
      order := OrderExists(keys - {k});
      OrderMore(order, keys - {k}, k);
      assert keys - {k} + {k} == keys;
      order := order + [k];
    }
  }

  lemma OrdersJoin<T(!new)>(p: seq<T>, ps: set<T>, q: seq<T>, qs: set<T>)
    requires Orders(p, ps) && Orders(q, qs) && ps !! qs
    ensures Orders(p + q, ps + qs)
  {
    forall k ensures k in p + q <==> k in ps + qs {
      assert k in p + q <==> k in p || k in q;
    }
    forall i, j | 0 <= i < j < |p + q| ensures (p + q)[i] != (p + q)[j] {
      if i < |p| <= j { assert p[i] in p && q[j - |p|] in q; }
    }
  }

  lemma SubsetSize<T>(a: set<T>, b: set<T>)
    requires a <= b
    ensures |a| <= |b|
  {
    assert b == a + (b - a);
  }
}
