/** Greedy packing of a list into consecutive chunks within a budget (internal/service/delivery_service.go:452-467). */
module Packing {
  function Sum<T>(size: T -> nat, xs: seq<T>): nat {
    if xs == [] then 0 else size(xs[0]) + Sum(size, xs[1..])
  }

  function Concat<T>(chunks: seq<seq<T>>): seq<T> {
    if chunks == [] then [] else chunks[0] + Concat(chunks[1..])
  }

  lemma {:induction false} SumAppend<T>(size: T -> nat, xs: seq<T>, ys: seq<T>)
    ensures Sum(size, xs + ys) == Sum(size, xs) + Sum(size, ys)
  {
    if xs == [] {
      assert xs + ys == ys;
    } else {
      assert (xs + ys)[1..] == xs[1..] + ys;
      SumAppend(size, xs[1..], ys);
    }
  }

  lemma {:induction false} ConcatAppend<T>(xs: seq<seq<T>>, chunk: seq<T>)
    ensures Concat(xs + [chunk]) == Concat(xs) + chunk
  {
    if xs == [] {
      assert xs + [chunk] == [chunk];
      assert Concat([chunk]) == chunk + Concat([]) == chunk;
    } else {
      assert (xs + [chunk])[1..] == xs[1..] + [chunk];
      ConcatAppend(xs[1..], chunk);
    }
  }

  /** The chunks are non-empty, in order and complete. */
  predicate Splits<T(==)>(chunks: seq<seq<T>>, items: seq<T>) {
    Concat(chunks) == items && forall i :: 0 <= i < |chunks| ==> chunks[i] != []
  }

  predicate Within<T>(size: T -> nat, chunks: seq<seq<T>>, budget: nat) {
    forall i :: 0 <= i < |chunks| ==> Sum(size, chunks[i]) <= budget
  }

  /** No chunk could have taken the first item of the next one. */
  ghost predicate Greedy<T>(size: T -> nat, chunks: seq<seq<T>>, budget: nat) {
    forall i, j :: 0 <= i < j < |chunks| && j == i + 1 && chunks[j] != [] ==> Sum(size, chunks[i]) + size(chunks[j][0]) > budget
  }

  /** The state of the packing loop after the items `done`: closed chunks and an open one. */
  ghost predicate Packed<T>(size: T -> nat, done: seq<T>, chunks: seq<seq<T>>, current: seq<T>, budget: nat) {
    && Concat(chunks) + current == done
    && (forall i :: 0 <= i < |chunks| ==> chunks[i] != [])
    && (current == [] ==> chunks == [])
    && Within(size, chunks + [current], budget)
    && Greedy(size, chunks + [current], budget)
  }

  lemma GreedyStep<T>(size: T -> nat, before: seq<seq<T>>, open: seq<T>, chunks: seq<seq<T>>, current: seq<T>, entry: T, budget: nat)
    requires Greedy(size, before + [open], budget) && (open == [] ==> before == [])
    requires || (chunks == before && current == open)
             || (chunks == before + [open] && current == [] && Sum(size, open) + size(entry) > budget)
    ensures Greedy(size, chunks + [current + [entry]], budget)
  {
    var was, grown := before + [open], chunks + [current + [entry]];
    forall i, j | 0 <= i < j < |grown| && j == i + 1 && grown[j] != []
      ensures Sum(size, grown[i]) + size(grown[j][0]) > budget
    {
      assert grown[i] == was[i];
      if j < |was| {
        assert open != [];
        assert was[j] != [] ==> grown[j][0] == was[j][0];
      }
    }
  }

  lemma PackStep<T>(size: T -> nat, done: seq<T>, chunks: seq<seq<T>>, current: seq<T>, entry: T, budget: nat)
    requires Packed(size, done, chunks, current, budget) && size(entry) <= budget
    ensures if |current| > 0 && Sum(size, current) + size(entry) > budget
            then Packed(size, done + [entry], chunks + [current], [] + [entry], budget)
            else Packed(size, done + [entry], chunks, current + [entry], budget)
  {
    SumAppend(size, current, [entry]);
    assert Sum(size, [entry]) == size(entry) + Sum(size, [entry][1..]);
    if |current| > 0 && Sum(size, current) + size(entry) > budget {
      ConcatAppend(chunks, current);
      var chunks' := chunks + [current];
      GreedyStep(size, chunks, current, chunks', [], entry, budget);
    } else {
      assert Concat(chunks) + (current + [entry]) == done + [entry];
      GreedyStep(size, chunks, current, chunks, current, entry, budget);
      assert forall i :: 0 <= i < |chunks| ==> (chunks + [current])[i] == chunks[i];
    }
  }

  method Pack<T(==)>(items: seq<T>, size: T -> nat, budget: nat) returns (chunks: seq<seq<T>>)
    requires forall i :: 0 <= i < |items| ==> size(items[i]) <= budget
    ensures Splits(chunks, items) && Within(size, chunks, budget) && Greedy(size, chunks, budget)
  {
    chunks := [];
    var current: seq<T> := [];
    var currentSize: nat := 0;
    for k := 0 to |items|
      invariant Packed(size, items[..k], chunks, current, budget)
      invariant currentSize == Sum(size, current)
    {
      var entry := items[k];
      assert items[..k + 1] == items[..k] + [entry];
      PackStep(size, items[..k], chunks, current, entry, budget);
      if |current| > 0 && currentSize + size(entry) > budget {
        chunks := chunks + [current];
        current := [];
        currentSize := 0;
      }
      SumAppend(size, current, [entry]);
      current := current + [entry];
      currentSize := currentSize + size(entry);
    }
    assert items[..|items|] == items;
    ConcatAppend(chunks, current);
    if |current| > 0 {
      chunks := chunks + [current];
    }
  }

  /** Any prefix of the items that fits the budget ends within the first greedy chunk. */
  lemma FirstChunkIsLongest<T>(size: T -> nat, chunks: seq<seq<T>>, prefix: seq<T>, budget: nat)
    requires |chunks| >= 2 && chunks[1] != [] && Greedy(size, chunks, budget)
    requires prefix <= Concat(chunks) && Sum(size, prefix) <= budget
    ensures |prefix| <= |chunks[0]|
  {
    var c, d := chunks[0], chunks[1];
    assert Sum(size, chunks[0]) + size(chunks[1][0]) > budget;
    assert Sum(size, [d[0]]) == size(d[0]) + Sum(size, [d[0]][1..]);
    SumAppend(size, c, [d[0]]);
    if |prefix| > |c| {
      assert Concat(chunks) == c + Concat(chunks[1..]);
      assert chunks[1..][0] == d;
      assert prefix == c + [d[0]] + prefix[|c| + 1..];
      SumAppend(size, c + [d[0]], prefix[|c| + 1..]);
    }
  }

  lemma Align<T>(a: seq<T>, b: seq<T>, c: seq<T>, d: seq<T>)
    requires a + b == c + d && |a| <= |c|
    ensures c == a + c[|a|..] && b == c[|a|..] + d
  {
    assert (a + b)[..|a|] == a && (c + d)[..|a|] == c[..|a|];
    assert (a + b)[|a|..] == b && (c + d)[|a|..] == c[|a|..] + d;
  }

  lemma GreedyTail<T>(size: T -> nat, chunks: seq<seq<T>>, budget: nat)
    requires chunks != [] && Greedy(size, chunks, budget)
    ensures Greedy(size, chunks[1..], budget)
  {
  }

  /** Greedy stays ahead: even when `skip` items were already packed, no other split gets by with fewer chunks. */
  lemma {:induction false} GreedyStaysAhead<T>(size: T -> nat, chunks: seq<seq<T>>, other: seq<seq<T>>, skip: seq<T>, budget: nat)
    requires forall i :: 0 <= i < |chunks| ==> chunks[i] != []
    requires Greedy(size, chunks, budget) && Within(size, other, budget)
    requires Concat(other) == skip + Concat(chunks)
    ensures |chunks| <= |other|
    decreases |other|
  {
    if chunks != [] {
      var all, first, others := Concat(chunks), other[0], other[1..];
      assert Concat(other) == first + Concat(others);
      if |skip| >= |first| {
        Align(first, Concat(others), skip, all);
        GreedyStaysAhead(size, chunks, others, skip[|first|..], budget);
      } else if |chunks| > 1 {
        var prefix := first[|skip|..];
        Align(skip, all, first, Concat(others));
        SumAppend(size, skip, prefix);
        FirstChunkIsLongest(size, chunks, prefix, budget);
        Align(prefix, Concat(others), chunks[0], Concat(chunks[1..]));
        GreedyTail(size, chunks, budget);
        GreedyStaysAhead(size, chunks[1..], others, chunks[0][|prefix|..], budget);
      }
    }
  }

  /** No split of the items into consecutive groups within the budget uses fewer chunks. */
  lemma GreedyIsMinimal<T>(size: T -> nat, items: seq<T>, chunks: seq<seq<T>>, other: seq<seq<T>>, budget: nat)
    requires Splits(chunks, items) && Greedy(size, chunks, budget)
    requires Concat(other) == items && Within(size, other, budget)
    ensures |chunks| <= |other|
  {
    assert [] + Concat(chunks) == items;
    GreedyStaysAhead(size, chunks, other, [], budget);
  }

  lemma FirstChunkReaches<T>(size: T -> nat, chunks: seq<seq<T>>, other: seq<seq<T>>, budget: nat)
    requires chunks != [] && other != [] && Concat(chunks) == Concat(other)
    requires forall i :: 0 <= i < |chunks| ==> chunks[i] != []
    requires Greedy(size, chunks, budget) && Within(size, other, budget)
    ensures |other[0]| <= |chunks[0]|
  {
    assert Concat(other) == other[0] + Concat(other[1..]);
    if |chunks| >= 2 {
      FirstChunkIsLongest(size, chunks, other[0], budget);
    } else {
      assert Concat(chunks) == chunks[0] + Concat(chunks[1..]);
    }
  }

  lemma SplitsNothing<T>(chunks: seq<seq<T>>, items: seq<T>)
    requires Splits(chunks, items)
    ensures chunks == [] <==> items == []
  {
    if chunks != [] {
      assert Concat(chunks) == chunks[0] + Concat(chunks[1..]);
    }
  }

  lemma SplitsTail<T>(chunks: seq<seq<T>>, items: seq<T>)
    requires Splits(chunks, items) && chunks != []
    ensures Splits(chunks[1..], items[|chunks[0]|..]) && items == chunks[0] + items[|chunks[0]|..]
  {
    assert items == chunks[0] + Concat(chunks[1..]);
  }

  /** The loop's result is the only greedy split within the budget. */
  lemma {:induction false} GreedyUnique<T>(size: T -> nat, items: seq<T>, chunks: seq<seq<T>>, other: seq<seq<T>>, budget: nat)
    requires Splits(chunks, items) && Within(size, chunks, budget) && Greedy(size, chunks, budget)
    requires Splits(other, items) && Within(size, other, budget) && Greedy(size, other, budget)
    ensures chunks == other
    decreases |chunks|
  {
    SplitsNothing(chunks, items);
    SplitsNothing(other, items);
    if chunks != [] {
      FirstChunkReaches(size, chunks, other, budget);
      FirstChunkReaches(size, other, chunks, budget);
      SplitsTail(chunks, items);
      SplitsTail(other, items);
      GreedyTail(size, chunks, budget);
      GreedyTail(size, other, budget);
      GreedyUnique(size, items[|chunks[0]|..], chunks[1..], other[1..], budget);
      assert chunks == [chunks[0]] + chunks[1..] && other == [other[0]] + other[1..];
    }
  }
}
