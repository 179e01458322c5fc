/** The order of sort.Strings, and why a sorted list is determined by its elements. UTF-8 byte order is code point order. */
module StringOrder {
  predicate Leq(a: string, b: string) {
    if a == "" then true
    else if b == "" then false
    else a[0] < b[0] || (a[0] == b[0] && Leq(a[1..], b[1..]))
  }

  lemma FirstDifference(a: string, b: string)
    requires a != "" && b != "" && a[0] == b[0]
    ensures a <= b <==> a[1..] <= b[1..]
    ensures (exists k :: 0 <= k < |a| && k < |b| && a[..k] == b[..k] && a[k] < b[k])
        <==> exists k :: 0 <= k < |a| - 1 && k < |b| - 1 && a[1..][..k] == b[1..][..k] && a[1..][k] < b[1..][k]
  {
    if k :| 0 <= k < |a| && k < |b| && a[..k] == b[..k] && a[k] < b[k] {
      assert k > 0;
      assert a[1..][..k - 1] == a[..k][1..] && b[1..][..k - 1] == b[..k][1..];
      assert a[1..][k - 1] < b[1..][k - 1];
    }
    if k :| 0 <= k < |a| - 1 && k < |b| - 1 && a[1..][..k] == b[1..][..k] && a[1..][k] < b[1..][k] {
      assert a[..k + 1] == [a[0]] + a[1..][..k] && b[..k + 1] == [b[0]] + b[1..][..k];
      assert a[k + 1] < b[k + 1];
    }
  }

  /** Byte by byte: a comes first when it begins b, or holds the smaller rune where they first differ. */
  lemma {:induction false} LeqIsLexicographic(a: string, b: string)
    ensures Leq(a, b) <==> a <= b || exists k :: 0 <= k < |a| && k < |b| && a[..k] == b[..k] && a[k] < b[k]
  {
    if a != "" && b != "" {
      LeqIsLexicographic(a[1..], b[1..]);
      if a[0] == b[0] {
        FirstDifference(a, b);
      }
    }
  }

  lemma {:induction false} LeqTotal(a: string, b: string)
    ensures Leq(a, b) || Leq(b, a)
  {
    if a != "" && b != "" && a[0] == b[0] {
      LeqTotal(a[1..], b[1..]);
    }
  }

  lemma {:induction false} LeqAntisymmetric(a: string, b: string)
    requires Leq(a, b) && Leq(b, a)
    ensures a == b
  {
    if a != "" && b != "" {
      LeqAntisymmetric(a[1..], b[1..]);
      assert a == [a[0]] + a[1..] && b == [b[0]] + b[1..];
    }
  }

  lemma {:induction false} LeqTransitive(a: string, b: string, c: string)
    requires Leq(a, b) && Leq(b, c)
    ensures Leq(a, c)
  {
    if a != "" && b != "" && c != "" && a[0] == b[0] && b[0] == c[0] {
      LeqTransitive(a[1..], b[1..], c[1..]);
    }
  }

  predicate Sorted(xs: seq<string>) {
    forall i, j :: 0 <= i < j < |xs| ==> Leq(xs[i], xs[j])
  }

  lemma FirstIsLeast(xs: seq<string>, x: string)
    requires Sorted(xs) && x in xs
    ensures Leq(xs[0], x)
  {
    LeqTotal(x, x);
  }

  lemma SortedTail(xs: seq<string>)
    requires Sorted(xs) && xs != []
    ensures Sorted(xs[1..]) && multiset(xs[1..]) == multiset(xs) - multiset{xs[0]}
  {
    assert xs == [xs[0]] + xs[1..];
    assert forall i :: 0 <= i < |xs| - 1 ==> xs[1..][i] == xs[i + 1];
  }

  lemma SortedHeads(xs: seq<string>, ys: seq<string>)
    requires Sorted(xs) && Sorted(ys) && multiset(xs) == multiset(ys) && xs != []
    ensures ys != [] && xs[0] == ys[0]
  {
    assert xs[0] in multiset(ys);
    assert ys[0] in multiset(xs);
    FirstIsLeast(xs, ys[0]);
    FirstIsLeast(ys, xs[0]);
    LeqAntisymmetric(xs[0], ys[0]);
  }

  /** Two sorted lists of the same elements are the same list. */
  lemma {:induction false} SortedUnique(xs: seq<string>, ys: seq<string>)
    requires Sorted(xs) && Sorted(ys) && multiset(xs) == multiset(ys)
    ensures xs == ys
    decreases |xs|
  {
    if xs == [] {
      assert |multiset(ys)| == |multiset(xs)| == 0;
    } else {
      SortedHeads(xs, ys);
      SortedTail(xs);
      SortedTail(ys);
      SortedUnique(xs[1..], ys[1..]);
      assert xs == [xs[0]] + xs[1..] && ys == [ys[0]] + ys[1..];
    }
  }

  function Insert(x: string, xs: seq<string>): (r: seq<string>)
    ensures multiset(r) == multiset(xs) + multiset{x}
  {
    if xs == [] || Leq(x, xs[0]) then [x] + xs
    else
      assert xs == [xs[0]] + xs[1..];
      [xs[0]] + Insert(x, xs[1..])
  }

  lemma ConsSorted(x: string, xs: seq<string>)
    requires Sorted(xs) && forall i :: 0 <= i < |xs| ==> Leq(x, xs[i])
    ensures Sorted([x] + xs)
  {
  }

  lemma LeastOfInsert(x: string, xs: seq<string>)
    requires Sorted(xs) && xs != [] && Leq(xs[0], x)
    ensures forall i :: 0 <= i < |Insert(x, xs[1..])| ==> Leq(xs[0], Insert(x, xs[1..])[i])
  {
    var r := Insert(x, xs[1..]);
    forall i | 0 <= i < |r|
      ensures Leq(xs[0], r[i])
    {
      assert r[i] in multiset(r);
      if r[i] != x {
        assert r[i] in multiset(xs[1..]);
        assert r[i] in xs[1..];
        FirstIsLeast(xs, r[i]);
      }
    }
  }

  lemma {:induction false} InsertSorted(x: string, xs: seq<string>)
    requires Sorted(xs)
    ensures Sorted(Insert(x, xs))
  {
    if xs != [] {
      if Leq(x, xs[0]) {
        forall i | 0 <= i < |xs|
          ensures Leq(x, xs[i])
        {
          FirstIsLeast(xs, xs[i]);
          LeqTransitive(x, xs[0], xs[i]);
        }
        ConsSorted(x, xs);
      } else {
        SortedTail(xs);
        InsertSorted(x, xs[1..]);
        LeqTotal(x, xs[0]);
        LeastOfInsert(x, xs);
        ConsSorted(xs[0], Insert(x, xs[1..]));
      }
    }
  }

  /** sort.Strings is a library call; any sort has this contract. */
  method SortStrings(xs: seq<string>) returns (r: seq<string>)
    ensures Sorted(r) && multiset(r) == multiset(xs)
  {
    r := [];
    for k := 0 to |xs|
      invariant Sorted(r) && multiset(r) == multiset(xs[..k])
    {
      InsertSorted(xs[k], r);
      assert xs[..k + 1] == xs[..k] + [xs[k]];
      r := Insert(xs[k], r);
    }
    assert xs[..|xs|] == xs;
  }

  lemma {:induction false} SomeSorted(xs: seq<string>) returns (r: seq<string>)
    ensures Sorted(r) && multiset(r) == multiset(xs)
  {
    if xs == [] {
      r := [];
    } else {
      var tail := SomeSorted(xs[1..]);
      InsertSorted(xs[0], tail);
      assert xs == [xs[0]] + xs[1..];
      r := Insert(xs[0], tail);
    }
  }
}
