/** Finite sums of reals, and the laws that let a conservation argument regroup them. */
module Sums {

  /** The sum of `f` over a finite set; the order in which the set is consumed is arbitrary. */
  ghost function SumOver<K(!new)>(keys: set<K>, f: K -> real): real
  {
    if keys == {} then 0.0 else
      var k :| k in keys;
      f(k) + SumOver(keys - {k}, f)
  }

  /** Any element may be taken out of the sum first. */
  lemma {:induction false} SumPick<K(!new)>(keys: set<K>, f: K -> real, k: K)
    requires k in keys
    ensures SumOver(keys, f) == f(k) + SumOver(keys - {k}, f)
    decreases |keys|
  {
    var c :| c in keys && SumOver(keys, f) == f(c) + SumOver(keys - {c}, f);
    if c != k {
      SumPick(keys - {c}, f, k);
      SumPick(keys - {k}, f, c);
      assert keys - {c} - {k} == keys - {k} - {c};
    }
  }

  lemma {:induction false} SumAgree<K(!new)>(keys: set<K>, f: K -> real, g: K -> real)
    requires forall k :: k in keys ==> f(k) == g(k)
    ensures SumOver(keys, f) == SumOver(keys, g)
  {
    if keys != {} {
      var k :| k in keys;
      SumPick(keys, f, k);
      SumPick(keys, g, k);
      SumAgree(keys - {k}, f, g);
    }
  }

  lemma {:induction false} SumZero<K(!new)>(keys: set<K>, f: K -> real)
    requires forall k :: k in keys ==> f(k) == 0.0
    ensures SumOver(keys, f) == 0.0
  {
    if keys != {} {
      var k :| k in keys;
      SumPick(keys, f, k);
      SumZero(keys - {k}, f);
    }
  }

  lemma {:induction false} SumAdd<K(!new)>(keys: set<K>, f: K -> real, g: K -> real, h: K -> real)
    requires forall k :: k in keys ==> h(k) == f(k) + g(k)
    ensures SumOver(keys, h) == SumOver(keys, f) + SumOver(keys, g)
  {
    if keys != {} {
      var k :| k in keys;
      SumPick(keys, f, k);
      SumPick(keys, g, k);
      SumPick(keys, h, k);
      SumAdd(keys - {k}, f, g, h);
    }
  }

  lemma {:induction false} SumScale<K(!new)>(keys: set<K>, f: K -> real, c: real, h: K -> real)
    requires forall k :: k in keys ==> h(k) == c * f(k)
    ensures SumOver(keys, h) == c * SumOver(keys, f)
  {
    hide SumOver;
    if keys == {} {
      SumZero(keys, f);
      SumZero(keys, h);
    } else {
      var k :| k in keys;
      SumPick(keys, f, k);
      SumPick(keys, h, k);
      SumScale(keys - {k}, f, c, h);
    }
  }

  lemma {:induction false} SumConstant<K(!new)>(keys: set<K>, f: K -> real, c: real)
    requires forall k :: k in keys ==> f(k) == c
    ensures SumOver(keys, f) == (|keys| as real) * c
  {
    if keys != {} {
      var k :| k in keys;
      SumPick(keys, f, k);
      SumConstant(keys - {k}, f, c);
      assert |keys - {k}| == |keys| - 1;
    }
  }

  /** Disjoint sets add up. */
  lemma {:induction false} SumUnion<K(!new)>(a: set<K>, b: set<K>, f: K -> real)
    requires a !! b
    ensures SumOver(a + b, f) == SumOver(a, f) + SumOver(b, f)
  {
    if a == {} {
      assert a + b == b;
    } else {
      var k :| k in a;
      SumPick(a, f, k);
      SumPick(a + b, f, k);
      assert (a + b) - {k} == (a - {k}) + b;
      SumUnion(a - {k}, b, f);
    }
  }

  lemma {:induction false} SumPositive<K(!new)>(keys: set<K>, f: K -> real)
    requires keys != {} && forall k :: k in keys ==> f(k) > 0.0
    ensures SumOver(keys, f) > 0.0
  {
    var k :| k in keys;
    SumPick(keys, f, k);
    if keys != {k} { SumPositive(keys - {k}, f); }
  }

  /** Elements on which `f` is zero may be added to the set freely. */
  lemma SumWiden<K(!new)>(small: set<K>, big: set<K>, f: K -> real)
    requires small <= big
    requires forall k :: k in big && k !in small ==> f(k) == 0.0
    ensures SumOver(big, f) == SumOver(small, f)
  {
    assert big == small + (big - small);
    SumUnion(small, big - small, f);
    SumZero(big - small, f);
  }

  /** Two functions that differ at one element only. */
  lemma SumUpdate<K(!new)>(keys: set<K>, f: K -> real, g: K -> real, k: K)
    requires k in keys
    requires forall j :: j in keys && j != k ==> f(j) == g(j)
    ensures SumOver(keys, g) == SumOver(keys, f) - f(k) + g(k)
  {
    SumPick(keys, f, k);
    SumPick(keys, g, k);
    SumAgree(keys - {k}, f, g);
  }

  /** The elements of `keys` that `t` sends to `j`. */
  function Fiber<K(!new), J(==)>(keys: set<K>, t: K -> J, j: J): set<K> {
    set k | k in keys && t(k) == j
  }

  /** Regrouping: summing group by group gives the whole sum. */
  lemma {:induction false} SumFibers<K(!new), J(!new)>(keys: set<K>, t: K -> J, groups: set<J>, f: K -> real)
    requires forall k :: k in keys ==> t(k) in groups
    ensures SumOver(groups, j => SumOver(Fiber(keys, t, j), f)) == SumOver(keys, f)
  {
    var g := j => SumOver(Fiber(keys, t, j), f);
    if keys == {} {
      forall j | j in groups ensures g(j) == 0.0 { assert Fiber(keys, t, j) == {}; }
      SumZero(groups, g);
    } else {
      var k :| k in keys;
      var rest := keys - {k};
      var h := j => SumOver(Fiber(rest, t, j), f);
      SumPick(keys, f, k);
      SumFibers(rest, t, groups, f);
      forall j | j in groups && j != t(k) ensures h(j) == g(j) {
        assert Fiber(keys, t, j) == Fiber(rest, t, j);
      }
      SumPick(Fiber(keys, t, t(k)), f, k);
      assert Fiber(keys, t, t(k)) - {k} == Fiber(rest, t, t(k));
      SumUpdate(groups, h, g, t(k));
    }
  }

  /** Renaming the elements one to one does not change the sum. */
  lemma {:induction false} SumRename<K(!new), L(!new)>(keys: set<K>, g: K -> real, name: K -> L, named: set<L>,
                                                       f: L -> real)
    requires forall k, l :: k in keys && l in keys && name(k) == name(l) ==> k == l
    requires named == set k | k in keys :: name(k)
    requires forall k :: k in keys ==> g(k) == f(name(k))
    ensures SumOver(named, f) == SumOver(keys, g)
  {
    if keys == {} {
      assert named == {};
    } else {
      var k :| k in keys;
      SumPick(keys, g, k);
      SumPick(named, f, name(k));
      assert named - {name(k)} == set j | j in keys - {k} :: name(j);
      SumRename(keys - {k}, g, name, named - {name(k)}, f);
    }
  }

  /** The sum of `f` over a sequence. */
  ghost function SumSeq<T>(xs: seq<T>, f: T -> real): real {
    if xs == [] then 0.0 else SumSeq(xs[..|xs| - 1], f) + f(xs[|xs| - 1])
  }

  lemma {:induction false} SumSeqConcat<T>(xs: seq<T>, ys: seq<T>, f: T -> real)
    ensures SumSeq(xs + ys, f) == SumSeq(xs, f) + SumSeq(ys, f)
  {
    if ys == [] {
      assert xs + ys == xs;
    } else {
      var n := |ys| - 1;
      assert (xs + ys)[..|xs + ys| - 1] == xs + ys[..n];
      SumSeqConcat(xs, ys[..n], f);
    }
  }

  lemma {:induction false} SumSeqAgree<T, U>(xs: seq<T>, f: T -> real, ys: seq<U>, g: U -> real)
    requires |xs| == |ys| && forall i :: 0 <= i < |xs| ==> f(xs[i]) == g(ys[i])
    ensures SumSeq(xs, f) == SumSeq(ys, g)
  {
    if xs != [] { SumSeqAgree(xs[..|xs| - 1], f, ys[..|ys| - 1], g); }
  }

  /** A sequence without repetitions sums like the set of its elements. */
  lemma {:induction false} SumSeqAsSet<T(!new)>(xs: seq<T>, f: T -> real)
    requires forall i, j :: 0 <= i < j < |xs| ==> xs[i] != xs[j]
    ensures SumSeq(xs, f) == SumOver((set x | x in xs), f)
  {
    if xs != [] {
      var n := |xs| - 1;
      var all := set x | x in xs;
      SumSeqAsSet(xs[..n], f);
      SumPick(all, f, xs[n]);
      assert all - {xs[n]} == set x | x in xs[..n];
    }
  }

  /** The sum of `f` over the integers from `lo` up to, not including, `hi`. */
  ghost function SumRange(lo: int, hi: int, f: int -> real): real
    decreases hi - lo
  {
    if hi <= lo then 0.0 else SumRange(lo, hi - 1, f) + f(hi - 1)
  }

  lemma {:induction false} SumRangeSplit(lo: int, mid: int, hi: int, f: int -> real)
    requires lo <= mid <= hi
    ensures SumRange(lo, hi, f) == SumRange(lo, mid, f) + SumRange(mid, hi, f)
    decreases hi - mid
  {
    if mid < hi { SumRangeSplit(lo, mid, hi - 1, f); }
  }

  lemma {:induction false} SumRangeConstant(lo: int, hi: int, f: int -> real, c: real)
    requires lo <= hi
    requires forall t :: lo <= t < hi ==> f(t) == c
    ensures SumRange(lo, hi, f) == ((hi - lo) as real) * c
    decreases hi - lo
  {
    if lo < hi { SumRangeConstant(lo, hi - 1, f, c); }
  }

  lemma Regroup(a: real, b: real, c: real)
    ensures a * (b * c) == (a * b) * c
  {
  }
}
