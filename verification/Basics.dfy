/** Small shared vocabulary: options, machine widths, finite-set facts and division. */
module Basics {

  datatype Option<+T> = None | Some(value: T)

  const U32_MAX: nat := 0xFFFF_FFFF
  const U64_MAX: nat := 0xFFFF_FFFF_FFFF_FFFF

  type U32 = n: nat | n <= U32_MAX

  /** Saturating increment of an unsigned counter whose largest value is `max`. */
  function SaturatingInc(n: nat, max: nat): nat {
    if n < max then n + 1 else max
  }

  function Min(a: nat, b: nat): nat {
    if a <= b then a else b
  }

  function Max(a: nat, b: nat): nat {
    if a <= b then b else a
  }

  /** The elements of a sequence, as a set. */
  function Elements<T>(s: seq<T>): set<T> {
    set x | x in s
  }

  ghost predicate NoDuplicates<T>(s: seq<T>) {
    forall i, j :: 0 <= i < j < |s| ==> s[i] != s[j]
  }

  lemma HeadElement<T>(s: seq<T>)
    ensures s != [] ==> s[0] in Elements(s)
  {
  }

  lemma {:induction false} DistinctElements<T>(s: seq<T>)
    requires NoDuplicates(s)
    ensures |Elements(s)| == |s|
  {
    if s != [] {
      var front, last := s[..|s| - 1], s[|s| - 1];
      DistinctElements(front);
      assert s == front + [last];
      assert last !in Elements(front);
      assert Elements(s) == Elements(front) + {last};
    }
  }

  /** A subset is no larger than the set holding it. */
  lemma {:induction false} SubsetSize<T>(a: set<T>, b: set<T>)
    requires a <= b
    ensures |a| <= |b|
    decreases a
  {
    if a != {} {
      var x :| x in a;
      SubsetSize(a - {x}, b - {x});
    }
  }

  /** The `n` numbers from `lo` on. */
  function Range(lo: nat, n: nat): (s: set<nat>)
    ensures |s| == n
    ensures forall x :: x in s <==> lo <= x < lo + n
  {
    if n == 0 then {} else Range(lo, n - 1) + {lo + n - 1}
  }

  /** A subset of equal size is the whole set. */
  lemma SubsetOfEqualSize<T>(a: set<T>, b: set<T>)
    requires a <= b && |a| == |b|
    ensures a == b
  {
    if a != b {
      var x :| x in b && x !in a;
      SubsetSize(a, b - {x});
    }
  }

  /** `m` times `k`, added up: recursive, so that proofs by rounds or ticks need no multiplication. */
  function Times(m: nat, k: nat): nat {
    if m == 0 then 0 else Times(m - 1, k) + k
  }

  lemma {:induction false} TimesIsProduct(m: nat, k: nat)
    ensures Times(m, k) == m * k
  {
    if m > 0 {
      TimesIsProduct(m - 1, k);
      assert m * k == (m - 1) * k + k;
    }
  }

  lemma {:induction false} TimesGrows(a: nat, b: nat, k: nat)
    requires a <= b
    ensures Times(a, k) <= Times(b, k)
  {
    if a < b {
      TimesGrows(a, b - 1, k);
    }
  }

  /** How many portions of `k` it takes to cover `n`. */
  function Portions(n: nat, k: nat): nat
    requires k > 0
  {
    (n + k - 1) / k
  }

  lemma PortionsCover(n: nat, k: nat)
    requires k > 0
    ensures n <= Times(Portions(n, k), k) < n + k
  {
    var x := n + k - 1;
    TimesIsProduct(x / k, k);
    assert x == x / k * k + x % k;
  }

  /** Just enough portions: with one fewer, something is left over. */
  lemma PortionsIff(n: nat, k: nat, m: nat)
    requires k > 0 && (m > 0 ==> n > Times(m - 1, k))
    ensures n <= Times(m, k) <==> m == Portions(n, k)
  {
    var q := Portions(n, k);
    PortionsCover(n, k);
    if m < q {
      TimesGrows(m, q - 1, k);
    } else if m > q {
      TimesGrows(q, m - 1, k);
    }
  }
}
