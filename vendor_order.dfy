/** The order pandas sorts vendor identifiers in (`sort_values`, `groupby`):
    lexicographic by code point, as Python compares strings. */
module VendorOrder {
  import opened Records
  import opened Seqs

  /** Python's `a < b` on strings. */
  predicate LexLess(a: string, b: string) {
    if |a| == 0 then |b| > 0
    else if |b| == 0 then false
    else a[0] < b[0] || (a[0] == b[0] && LexLess(a[1..], b[1..]))
  }

  lemma {:induction false} LexLessIrreflexive(a: string)
    ensures !LexLess(a, a)
  {
    if |a| > 0 {
      LexLessIrreflexive(a[1..]);
    }
  }

  lemma {:induction false} LexLessTransitive(a: string, b: string, c: string)
    requires LexLess(a, b) && LexLess(b, c)
    ensures LexLess(a, c)
  {
    if |a| > 0 && |b| > 0 && |c| > 0 && a[0] == b[0] == c[0] {
      LexLessTransitive(a[1..], b[1..], c[1..]);
    }
  }

  /** Any two different strings are ordered one way or the other. */
  lemma {:induction false} LexLessTotal(a: string, b: string)
    ensures a == b || LexLess(a, b) || LexLess(b, a)
  {
    if |a| > 0 && |b| > 0 && a[0] == b[0] {
      LexLessTotal(a[1..], b[1..]);
      if a[1..] == b[1..] {
        assert a == [a[0]] + a[1..] && b == [b[0]] + b[1..];
      }
    }
  }

  lemma LexLessAsymmetric(a: string, b: string)
    requires LexLess(a, b)
    ensures !LexLess(b, a) && a != b
  {
    LexLessIrreflexive(a);
    if LexLess(b, a) {
      LexLessTransitive(a, b, a);
    }
  }

  predicate StrictlySorted(vs: seq<VendorId>) {
    forall i, j :: 0 <= i < j < |vs| ==> LexLess(vs[i], vs[j])
  }

  /** Inserts a vendor into a strictly sorted list, unless it is already there. */
  function Insert(v: VendorId, vs: seq<VendorId>): (r: seq<VendorId>)
    requires StrictlySorted(vs)
    ensures StrictlySorted(r)
    ensures forall w :: w in r <==> w == v || w in vs
  {
    if vs == [] then [v]
    else if v == vs[0] then vs
    else if LexLess(v, vs[0]) then
      assert forall j :: 0 <= j < |vs| ==> LexLess(v, vs[j]) by {
        forall j | 0 < j < |vs| ensures LexLess(v, vs[j]) {
          LexLessTransitive(v, vs[0], vs[j]);
        }
      }
      [v] + vs
    else
      LexLessTotal(v, vs[0]);
      var rest := Insert(v, vs[1..]);
      assert forall w :: w in rest ==> LexLess(vs[0], w) by {
        forall w | w in rest ensures LexLess(vs[0], w) {
          if w != v {
            var j :| 0 <= j < |vs[1..]| && vs[1..][j] == w;
            assert vs[j + 1] == w;
          }
        }
      }
      [vs[0]] + rest
  }

  /** The distinct vendors of a sequence, in lexicographic order: the order of
      the groups of `groupby(by='canonical_vendor_id')`. */
  function SortedDistinct(vs: seq<VendorId>): (r: seq<VendorId>)
    ensures StrictlySorted(r)
    ensures forall w :: w in r <==> w in vs
  {
    if vs == [] then [] else Insert(vs[0], SortedDistinct(vs[1..]))
  }

  /** A strictly sorted list has no vendor twice. */
  lemma StrictlySortedDistinct(vs: seq<VendorId>)
    requires StrictlySorted(vs)
    ensures Distinct(vs)
  {
    forall i, j | 0 <= i < j < |vs| ensures vs[i] != vs[j] {
      LexLessAsymmetric(vs[i], vs[j]);
    }
  }
}
