/** Sequence operations standing for the data-frame steps the detectors use:
    keeping the rows a row function returns text for, a vendor-by-period grid,
    `unique()` and the sum of a column. */
module Seqs {
  import opened Records

  /** Keeps, in order, the value of every element the row function maps to Some
      (`df.apply(f, axis=1)` followed by dropping the rows where f returned None). */
  function FilterMap<T, U>(xs: seq<T>, f: T -> Option<U>): (r: seq<U>)
    ensures |r| <= |xs|
  {
    if xs == [] then []
    else
      match f(xs[0])
      case Some(u) => [u] + FilterMap(xs[1..], f)
      case None => FilterMap(xs[1..], f)
  }

  /** What FilterMap keeps is exactly what the row function produces for some row. */
  lemma {:induction false} FilterMapMember<T, U>(xs: seq<T>, f: T -> Option<U>, u: U)
    ensures u in FilterMap(xs, f) <==> exists i :: 0 <= i < |xs| && f(xs[i]) == Some(u)
  {
    if xs != [] {
      FilterMapMember(xs[1..], f, u);
      if exists i :: 0 <= i < |xs| && f(xs[i]) == Some(u) {
        var i :| 0 <= i < |xs| && f(xs[i]) == Some(u);
        if i > 0 {
          assert f(xs[1..][i - 1]) == Some(u);
        }
      }
      if exists i :: 0 <= i < |xs[1..]| && f(xs[1..][i]) == Some(u) {
        var i :| 0 <= i < |xs[1..]| && f(xs[1..][i]) == Some(u);
        assert f(xs[i + 1]) == Some(u);
      }
    }
  }

  /** FilterMap keeps the order of the rows: two outputs come from two rows in
      the same order. */
  lemma {:induction false} FilterMapOrder<T, U>(xs: seq<T>, f: T -> Option<U>, i: int, j: int) returns (a: nat, b: nat)
    requires 0 <= i < j < |FilterMap(xs, f)|
    ensures a < b < |xs|
    ensures f(xs[a]) == Some(FilterMap(xs, f)[i]) && f(xs[b]) == Some(FilterMap(xs, f)[j])
  {
    var r, rest := FilterMap(xs, f), FilterMap(xs[1..], f);
    match f(xs[0])
    case Some(u) =>
      assert r == [u] + rest;
      if i == 0 {
        assert r[j] == rest[j - 1] && rest[j - 1] in rest;
        FilterMapMember(xs[1..], f, r[j]);
        var k :| 0 <= k < |xs[1..]| && f(xs[1..][k]) == Some(r[j]);
        a, b := 0, k + 1;
      } else {
        var a', b' := FilterMapOrder(xs[1..], f, i - 1, j - 1);
        a, b := a' + 1, b' + 1;
      }
    case None =>
      var a', b' := FilterMapOrder(xs[1..], f, i, j);
      a, b := a' + 1, b' + 1;
  }

  /** Whether a sequence has no element twice. */
  predicate Distinct<T(==)>(xs: seq<T>) {
    forall i, j :: 0 <= i < j < |xs| ==> xs[i] != xs[j]
  }

  /** Every pair (a, b) with a from `left` and b from `right`, grouped by a, in the
      order of `left` and then of `right` (a per-vendor grid built with pd.concat). */
  function Pairs<A, B>(left: seq<A>, right: seq<B>): (r: seq<(A, B)>)
    ensures |r| == |left| * |right|
  {
    if left == [] then [] else Tag(left[0], right) + Pairs(left[1..], right)
  }

  function Tag<A, B>(a: A, right: seq<B>): (r: seq<(A, B)>)
    ensures |r| == |right|
    ensures forall i :: 0 <= i < |right| ==> r[i] == (a, right[i])
  {
    if right == [] then [] else [(a, right[0])] + Tag(a, right[1..])
  }

  lemma {:induction false} PairsMember<A, B>(left: seq<A>, right: seq<B>, a: A, b: B)
    ensures (a, b) in Pairs(left, right) <==> a in left && b in right
  {
    if left != [] {
      PairsMember(left[1..], right, a, b);
      var t := Tag(left[0], right);
      if (a, b) in t {
        var i :| 0 <= i < |t| && t[i] == (a, b);
        assert right[i] == b;
      }
      if a == left[0] && b in right {
        var i :| 0 <= i < |right| && right[i] == b;
        assert t[i] == (a, b);
      }
      assert a in left <==> a == left[0] || a in left[1..];
    }
  }

  /** The pairs of two lists without repeats have no repeats. */
  lemma {:induction false} PairsDistinct<A, B>(left: seq<A>, right: seq<B>)
    requires Distinct(left) && Distinct(right)
    ensures Distinct(Pairs(left, right))
  {
    if left != [] {
      var t, rest := Tag(left[0], right), Pairs(left[1..], right);
      PairsDistinct(left[1..], right);
      assert Pairs(left, right) == t + rest;
      forall i, j | 0 <= i < j < |t + rest| ensures (t + rest)[i] != (t + rest)[j] {
        if i < |t| <= j {
          var q := rest[j - |t|];
          assert q in rest;
          PairsMember(left[1..], right, q.0, q.1);
          var k :| 0 <= k < |left[1..]| && left[1..][k] == q.0;
          assert left[k + 1] == q.0;
        } else if |t| <= i {
          assert (t + rest)[i] == rest[i - |t|] && (t + rest)[j] == rest[j - |t|];
        }
      }
    }
  }

  /** `Series.unique()`: the distinct elements, in the order of their first occurrence. */
  function Unique<T(==,!new)>(xs: seq<T>): (r: seq<T>)
    ensures Distinct(r)
    ensures forall x :: x in r <==> x in xs
    ensures forall i, j :: 0 <= i < j < |r| ==> FirstIndex(xs, r[i]) < FirstIndex(xs, r[j])
  {
    if xs == [] then []
    else
      var init := xs[..|xs| - 1];
      var r := Unique(init);
      var x := xs[|xs| - 1];
      assert forall y :: y in init ==> FirstIndex(xs, y) == FirstIndex(init, y) by {
        forall y | y in init ensures FirstIndex(xs, y) == FirstIndex(init, y) {
          FirstIndexPrefix(init, xs, y);
        }
      }
      assert xs == init + [x];
      if x in r then r
      else
        assert FirstIndex(xs, x) == |xs| - 1 by {
          FirstIndexLast(xs);
        }
        r + [x]
  }

  /** The index of the first occurrence of x in xs. */
  function FirstIndex<T(==)>(xs: seq<T>, x: T): (i: nat)
    requires x in xs
    ensures i < |xs| && xs[i] == x
    ensures forall j :: 0 <= j < i ==> xs[j] != x
  {
    if xs[0] == x then 0 else 1 + FirstIndex(xs[1..], x)
  }

  lemma {:induction false} FirstIndexPrefix<T>(p: seq<T>, xs: seq<T>, x: T)
    requires x in p && p <= xs
    ensures x in xs && FirstIndex(xs, x) == FirstIndex(p, x)
  {
    var i := FirstIndex(p, x);
    var k := FirstIndex(xs, x);
    assert xs[i] == x;
    assert k <= i;
    assert p[k] == x;
  }

  lemma FirstIndexLast<T>(xs: seq<T>)
    requires |xs| > 0 && xs[|xs| - 1] !in xs[..|xs| - 1]
    ensures FirstIndex(xs, xs[|xs| - 1]) == |xs| - 1
  {
  }

  /** The sum of a column (`agg('sum')`); an empty column sums to 0. */
  function Sum(xs: seq<real>): real {
    if xs == [] then 0.0 else xs[0] + Sum(xs[1..])
  }
}
