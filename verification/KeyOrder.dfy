/**
 The orders in which agent keys are visited: `sort` on strings, and `sort` on (timestamp, key) pairs.
 Both are total, so what is computed from a hash map does not depend on its iteration order.
 */
module KeyOrder {
  import opened Basics

  /** Lexicographic order by code point, the order of a string's UTF-8 bytes. */
  predicate Leq(a: string, b: string) {
    a == [] || (b != [] && (a[0] < b[0] || (a[0] == b[0] && Leq(a[1..], b[1..]))))
  }

  lemma {:induction false} LeqTotal(a: string, b: string)
    ensures Leq(a, b) || Leq(b, a)
  {
    if a != [] && b != [] && a[0] == b[0] {
      LeqTotal(a[1..], b[1..]);
    }
  }

  lemma {:induction false} LeqAntisymmetric(a: string, b: string)
    requires Leq(a, b) && Leq(b, a)
    ensures a == b
  {
    if a != [] && b != [] {
      LeqAntisymmetric(a[1..], b[1..]);
      assert a == [a[0]] + a[1..] && b == [b[0]] + b[1..];
    }
  }

  lemma {:induction false} LeqTransitive(a: string, b: string, c: string)
    requires Leq(a, b) && Leq(b, c)
    ensures Leq(a, c)
  {
    if a != [] && a[0] == b[0] && b[0] == c[0] {
      LeqTransitive(a[1..], b[1..], c[1..]);
    }
  }

  /** The strings agree before `n`, where the first ends or has the smaller character. */
  predicate PartAt(a: string, b: string, n: nat) {
    n <= |a| && n <= |b| && a[..n] == b[..n] && (n == |a| || (n < |b| && a[n] < b[n]))
  }

  /** The order is the lexicographic one: a prefix first, else the smaller character where they part. */
  lemma {:induction false} LeqIff(a: string, b: string)
    ensures Leq(a, b) <==> exists n: nat :: PartAt(a, b, n)
  {
    if a == [] {
      assert PartAt(a, b, 0);
    } else if b != [] {
      LeqIff(a[1..], b[1..]);
      if a[0] < b[0] {
        assert PartAt(a, b, 0);
      } else if a[0] == b[0] {
        if n: nat :| PartAt(a[1..], b[1..], n) {
          PartTail(a, b, n);
        }
        if n: nat :| PartAt(a, b, n) {
          PartTail(a, b, n - 1);
        }
      } else {
        forall n: nat ensures !PartAt(a, b, n) {
          PartHead(a, b, n);
        }
      }
    }
  }

  lemma PartHead(a: string, b: string, n: nat)
    requires a != [] && b != []
    ensures PartAt(a, b, n) && n > 0 ==> a[0] == b[0]
  {
    if PartAt(a, b, n) && n > 0 {
      assert a[..n][0] == b[..n][0];
    }
  }

  lemma PartTail(a: string, b: string, n: nat)
    requires a != [] && b != [] && a[0] == b[0]
    ensures PartAt(a[1..], b[1..], n) <==> PartAt(a, b, n + 1)
  {
    if n < |a| && n < |b| {
      assert a[..n + 1] == [a[0]] + a[1..][..n] && b[..n + 1] == [b[0]] + b[1..][..n];
      assert a[..n + 1][1..] == a[1..][..n] && b[..n + 1][1..] == b[1..][..n];
    }
  }

  /** Keys with a date each. */
  type Dates = map<string, nat>

  /** Older first, then by key. */
  predicate NotAfter(dates: Dates, a: string, b: string)
    requires a in dates && b in dates
  {
    dates[a] < dates[b] || (dates[a] == dates[b] && Leq(a, b))
  }

  ghost predicate IsFirst(dates: Dates, k: string) {
    k in dates && forall x :: x in dates ==> NotAfter(dates, k, x)
  }

  lemma FirstIsUnique(dates: Dates, j: string, k: string)
    requires IsFirst(dates, j) && IsFirst(dates, k)
    ensures j == k
  {
    assert NotAfter(dates, j, k) && NotAfter(dates, k, j);
    LeqAntisymmetric(j, k);
  }

  lemma NotAfterTransitive(dates: Dates, a: string, b: string, c: string)
    requires a in dates && b in dates && c in dates
    requires NotAfter(dates, a, b) && NotAfter(dates, b, c)
    ensures NotAfter(dates, a, c)
  {
    if dates[a] == dates[c] {
      LeqTransitive(a, b, c);
    }
  }

  lemma NotAfterTotal(dates: Dates, a: string, b: string)
    requires a in dates && b in dates
    ensures NotAfter(dates, a, b) || NotAfter(dates, b, a)
  {
    LeqTotal(a, b);
  }

  lemma {:induction false} HasFirst(dates: Dates)
    requires dates != map[]
    ensures exists k :: IsFirst(dates, k)
    decreases |dates|
  {
    var x :| x in dates;
    NotAfterTotal(dates, x, x);
    var rest := dates - {x};
    if rest == map[] {
      assert forall y :: y in dates ==> y == x || y in rest;
      assert IsFirst(dates, x);
    } else {
      HasFirst(rest);
      var first :| IsFirst(rest, first);
      NotAfterTotal(dates, x, first);
      assert forall y :: y in rest ==> NotAfter(dates, first, y) by {
        assert forall y :: y in rest ==> NotAfter(rest, first, y);
      }
      forall y | y in rest && NotAfter(dates, x, first) ensures NotAfter(dates, x, y) {
        NotAfterTransitive(dates, x, first, y);
      }
      assert IsFirst(dates, x) || IsFirst(dates, first);
    }
  }

  /** The keys from first to last. */
  ghost function Ordered(dates: Dates): (ks: seq<string>)
    ensures |ks| == |dates|
    decreases |dates|
  {
    if dates == map[] then []
    else
      HasFirst(dates);
      var k :| IsFirst(dates, k);
      [k] + Ordered(dates - {k})
  }

  ghost predicate InOrder(dates: Dates, ks: seq<string>) {
    && (forall i :: 0 <= i < |ks| ==> ks[i] in dates)
    && forall i, j :: 0 <= i < j < |ks| ==> NotAfter(dates, ks[i], ks[j])
  }

  lemma {:induction false} OrderedKeys(dates: Dates, k: string)
    ensures k in Ordered(dates) <==> k in dates
    decreases |dates|
  {
    if dates != map[] {
      var first := Ordered(dates)[0];
      assert Ordered(dates) == [first] + Ordered(dates - {first});
      OrderedKeys(dates - {first}, k);
    }
  }

  lemma {:induction false} OrderedDistinct(dates: Dates)
    ensures NoDuplicates(Ordered(dates))
    decreases |dates|
  {
    if dates != map[] {
      var first := Ordered(dates)[0];
      assert Ordered(dates) == [first] + Ordered(dates - {first});
      OrderedDistinct(dates - {first});
      OrderedKeys(dates - {first}, first);
    }
  }

  lemma {:induction false} OrderedInOrder(dates: Dates)
    ensures InOrder(dates, Ordered(dates))
    decreases |dates|
  {
    if dates != map[] {
      var first := Ordered(dates)[0];
      var rest := Ordered(dates - {first});
      assert IsFirst(dates, first) && Ordered(dates) == [first] + rest;
      OrderedInOrder(dates - {first});
      FirstStays(dates, first, rest);
    }
  }

  lemma FirstStays(dates: Dates, first: string, rest: seq<string>)
    requires IsFirst(dates, first) && InOrder(dates - {first}, rest)
    ensures InOrder(dates, [first] + rest)
  {
    var ks := [first] + rest;
    forall i, j | 0 <= i < j < |ks| ensures ks[i] in dates && ks[j] in dates && NotAfter(dates, ks[i], ks[j]) {
      assert rest[j - 1] in dates - {first};
      if i > 0 {
        assert NotAfter(dates - {first}, rest[i - 1], rest[j - 1]);
      }
    }
  }

  lemma {:induction false} TakenOf(ks: seq<string>, n: nat, k: string)
    requires n <= |ks| && NoDuplicates(ks) && k in ks
    ensures k in ks[..n] || (exists j :: n <= j < |ks| && ks[j] == k)
  {
    var j :| 0 <= j < |ks| && ks[j] == k;
    if j < n {
      assert ks[..n][j] == k;
    }
  }

  /** The first `n` keys in order: nobody left out comes before any of them. */
  lemma TakenFirst(dates: Dates, ks: seq<string>, n: nat)
    requires n <= |ks| && NoDuplicates(ks) && InOrder(dates, ks) && forall k :: k in dates ==> k in ks
    ensures Elements(ks[..n]) <= dates.Keys && |Elements(ks[..n])| == n
    ensures forall x, y :: x in Elements(ks[..n]) && y in dates.Keys - Elements(ks[..n]) ==> NotAfter(dates, x, y)
  {
    DistinctElements(ks[..n]);
    forall x, y | x in Elements(ks[..n]) && y in dates.Keys - Elements(ks[..n]) ensures NotAfter(dates, x, y) {
      TakenOf(ks, n, y);
    }
  }

  lemma OrderedFrom(dates: Dates, k: string)
    requires IsFirst(dates, k)
    ensures Ordered(dates) == [k] + Ordered(dates - {k})
  {
    var first := Ordered(dates)[0];
    assert IsFirst(dates, first) && Ordered(dates) == [first] + Ordered(dates - {first});
    FirstIsUnique(dates, k, first);
  }

  lemma OrderedNext(dates: Dates, ks: seq<string>, rest: Dates, k: string)
    requires Ordered(dates) == ks + Ordered(rest) && IsFirst(rest, k)
    ensures Ordered(dates) == (ks + [k]) + Ordered(rest - {k})
  {
    OrderedFrom(rest, k);
    Regroup(ks, k, Ordered(rest - {k}));
  }

  lemma Regroup<T>(a: seq<T>, x: T, b: seq<T>)
    ensures a + ([x] + b) == (a + [x]) + b
  {
  }

  /** Selection by repeatedly taking the first of what is left. */
  method SortKeys(dates: Dates) returns (ks: seq<string>)
    ensures ks == Ordered(dates)
  {
    ks := [];
    var rest := dates;
    while rest != map[]
      invariant Ordered(dates) == ks + Ordered(rest)
      decreases |rest|
    {
      var k := FindFirst(rest);
      OrderedNext(dates, ks, rest, k);
      ks := ks + [k];
      rest := rest - {k};
    }
  }

  method FindFirst(dates: Dates) returns (k: string)
    requires dates != map[]
    ensures IsFirst(dates, k)
  {
    k :| k in dates.Keys;
    NotAfterTotal(dates, k, k);
    var rest := dates.Keys - {k};
    while rest != {}
      invariant rest <= dates.Keys && k in dates
      invariant forall x :: x in dates && x !in rest ==> NotAfter(dates, k, x)
      decreases |rest|
    {
      var x :| x in rest;
      NotAfterTotal(dates, k, x);
      NotAfterTotal(dates, x, x);
      if NotAfter(dates, x, k) {
        forall y | y in dates && y !in rest ensures NotAfter(dates, x, y) {
          NotAfterTransitive(dates, x, k, y);
        }
        k := x;
      }
      rest := rest - {x};
    }
  }
}
