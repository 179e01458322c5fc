/**
 How long a part line the 16-rune reserve covers (internal/service/delivery_service.go:413-482): the
 condition under which the final size check never fires.
 */
module Reserve {
  import opened Packing
  import opened Chunking
  import Splitter

  predicate SolidBody(a: Alert) { a.body != "" && !Splitter.IsSpace(a.body[|a.body| - 1]) }

  /** No alert body is empty or ends in a space. */
  predicate Solid(alerts: seq<Alert>) { forall i :: 0 <= i < |alerts| ==> SolidBody(alerts[i]) }

  /** The text of a part line, by part number and part count. */
  type PartLine = (nat, nat) -> string

  /** The same alerts as the only part, and as the i-th of n parts, differ in length by the part line. */
  ghost predicate Prefixed(render: Render, line: PartLine) {
    forall d: MessageData, xs: seq<Alert>, i: nat, n: nat {:trigger Clone(d, xs, i, n)} ::
      n > 1 && Solid(xs) ==> Length(render(Clone(d, xs, i, n))) == |line(i, n)| + Length(render(Clone(d, xs, 1, 1)))
  }

  /** Rendered together, alerts take no more than what was measured one by one. */
  ghost predicate FitsMeasure(render: Render, d: MessageData, xs: seq<Alert>) {
    Length(render(Clone(d, xs, 1, 1))) <= Length(render(Shell(d))) + Sum(a => Measured(render, d, a), xs)
  }

  /** That holds of all batches of a family. */
  ghost predicate Subadditive(render: Render, family: MessageData -> bool) {
    forall d, xs :: family(d) && Solid(xs) ==> FitsMeasure(render, d, xs)
  }

  /** A batch of the family that does not fit one message, with the chunks it is packed into. */
  ghost predicate Batch(render: Render, family: MessageData -> bool, data: MessageData, chunks: seq<seq<Alert>>) {
    && family(data) && Solid(data.alerts) && data.partCount == 1
    && Length(render(data)) > MAX_CHARS
    && Chunked(render, data, chunks)
  }

  /** The final size check fires on no batch of up to max chunks. */
  ghost predicate NeverFires(render: Render, family: MessageData -> bool, max: nat) {
    forall data, chunks :: Batch(render, family, data, chunks) && |chunks| <= max ==> FinalCheckPasses(render, data, chunks)
  }

  /** Every part line of up to max parts fits the reserve. */
  ghost predicate LinesFit(line: PartLine, max: nat) {
    forall i, n :: 1 <= i <= n <= max && n > 1 ==> |line(i, n)| <= PART_COUNT_RESERVE
  }

  // ---------------------------------------------------------------------------------------------
  // Short lines
  // ---------------------------------------------------------------------------------------------

  lemma {:induction false} ChunksSolid(chunks: seq<seq<Alert>>, i: nat)
    requires Solid(Concat(chunks)) && i < |chunks|
    ensures Solid(chunks[i])
  {
    var rest := Concat(chunks[1..]);
    assert Concat(chunks) == chunks[0] + rest;
    if i == 0 {
      assert forall k :: 0 <= k < |chunks[0]| ==> Concat(chunks)[k] == chunks[0][k];
    } else {
      assert forall k :: 0 <= k < |rest| ==> rest[k] == Concat(chunks)[|chunks[0]| + k];
      ChunksSolid(chunks[1..], i - 1);
    }
  }

  /** A chunk that fits its measure and whose line fits the reserve is within the reserve. */
  lemma ShortLineWithinReserve(render: Render, line: PartLine, data: MessageData, chunks: seq<seq<Alert>>, i: nat)
    requires Prefixed(render, line) && i < |chunks| && Solid(chunks[i]) && FitsMeasure(render, data, chunks[i])
    requires |chunks| > 1 ==> |line(i + 1, |chunks|)| <= PART_COUNT_RESERVE
    ensures WithinReserve(render, data, chunks, i)
  {
    if |chunks| > 1 {
      assert Length(render(Clone(data, chunks[i], i + 1, |chunks|)))
          == |line(i + 1, |chunks|)| + Length(render(Clone(data, chunks[i], 1, 1)));
    }
  }

  lemma ShortLinesPass(render: Render, family: MessageData -> bool, line: PartLine, data: MessageData, chunks: seq<seq<Alert>>, max: nat)
    requires Prefixed(render, line) && Subadditive(render, family) && Batch(render, family, data, chunks)
    requires |chunks| <= max && LinesFit(line, max)
    ensures FinalCheckPasses(render, data, chunks)
  {
    forall i | 0 <= i < |chunks|
      ensures WithinReserve(render, data, chunks, i)
    {
      ChunksSolid(chunks, i);
      assert FitsMeasure(render, data, chunks[i]);
      ShortLineWithinReserve(render, line, data, chunks, i);
    }
    FinalCheck(render, data, chunks);
  }

  // ---------------------------------------------------------------------------------------------
  // Long lines
  // ---------------------------------------------------------------------------------------------

  function Copies(a: Alert, m: nat): (r: seq<Alert>)
    ensures |r| == m && forall i :: 0 <= i < m ==> r[i] == a
  {
    if m == 0 then [] else [a] + Copies(a, m - 1)
  }

  function Singletons(a: Alert, m: nat): (r: seq<seq<Alert>>)
    ensures |r| == m && forall i :: 0 <= i < m ==> r[i] == [a]
  {
    if m == 0 then [] else [[a]] + Singletons(a, m - 1)
  }

  lemma {:induction false} SingletonsSplit(a: Alert, m: nat)
    ensures Concat(Singletons(a, m)) == Copies(a, m)
  {
    if m > 0 {
      SingletonsSplit(a, m - 1);
      assert Singletons(a, m)[1..] == Singletons(a, m - 1) && Copies(a, m)[1..] == Copies(a, m - 1);
    }
  }

  lemma SumOne<T>(size: T -> nat, x: T)
    ensures Sum(size, [x]) == size(x)
  {
    assert [x][1..] == [];
  }

  lemma SingletonsGreedy(size: Alert -> nat, a: Alert, m: nat)
    requires size(a) > 0
    ensures Within(size, Singletons(a, m), size(a)) && Greedy(size, Singletons(a, m), size(a))
  {
    SumOne(size, a);
  }

  /** The alert fills the budget of the batch to the last rune. */
  predicate Fills(render: Render, data: MessageData, a: Alert) {
    SolidBody(a) && Budget(render, data) > 0 && Length(render(Single(data, a))) == MAX_CHARS - PART_COUNT_RESERVE
  }

  /** A batch of n such alerts that does not fit one message. */
  predicate FullBatch(render: Render, family: MessageData -> bool, data: MessageData, a: Alert, n: nat) {
    && family(data) && data.partCount == 1 && data.alerts == Copies(a, n)
    && Fills(render, data, a) && Length(render(data)) > MAX_CHARS
  }

  /** It is packed into n chunks, an alert each. */
  lemma FullBatchIsBatch(render: Render, family: MessageData -> bool, data: MessageData, a: Alert, n: nat)
    requires FullBatch(render, family, data, a, n)
    ensures Batch(render, family, data, Singletons(a, n))
  {
    SingletonsSplit(a, n);
    SingletonsGreedy((x: Alert) => Measured(render, data, x), a, n);
    GreedyChunked(render, data, Singletons(a, n));
  }

  /** A part with one alert that fills the budget exceeds the limit by exactly what its line exceeds the reserve. */
  lemma FullPartLength(render: Render, line: PartLine, data: MessageData, a: Alert, i: nat, n: nat)
    requires Prefixed(render, line) && Fills(render, data, a) && n > 1
    ensures Length(render(Clone(data, [a], i, n))) == MAX_CHARS - PART_COUNT_RESERVE + |line(i, n)|
  {
    assert Clone(data, [a], 1, 1) == Single(data, a);
  }

  lemma LongLineRejects(render: Render, family: MessageData -> bool, line: PartLine, data: MessageData, a: Alert, i: nat, n: nat)
    requires Prefixed(render, line) && FullBatch(render, family, data, a, n)
    requires 1 <= i <= n && n > 1 && |line(i, n)| > PART_COUNT_RESERVE
    ensures Batch(render, family, data, Singletons(a, n)) && !FinalCheckPasses(render, data, Singletons(a, n))
  {
    FullBatchIsBatch(render, family, data, a, n);
    FullPartLength(render, line, data, a, i, n);
    assert Singletons(a, n)[i - 1] == [a];
  }

  /** The family has a full batch of n parts. */
  ghost predicate HasFullBatch(render: Render, family: MessageData -> bool, n: nat) {
    exists data, a :: FullBatch(render, family, data, a, n)
  }

  lemma LongLineFires(render: Render, family: MessageData -> bool, line: PartLine, i: nat, n: nat, max: nat)
    requires Prefixed(render, line) && HasFullBatch(render, family, n)
    requires 1 <= i <= n <= max && n > 1 && |line(i, n)| > PART_COUNT_RESERVE
    ensures !NeverFires(render, family, max)
  {
    var data, a :| FullBatch(render, family, data, a, n);
    LongLineRejects(render, family, line, data, a, i, n);
    assert |Singletons(a, n)| <= max;
  }

  /** The check never fires on a batch of up to max chunks if and only if the part lines of up to max parts fit the reserve. */
  lemma ReserveIff(render: Render, family: MessageData -> bool, line: PartLine, max: nat)
    requires Prefixed(render, line) && Subadditive(render, family)
    requires forall n :: 1 < n <= max ==> HasFullBatch(render, family, n)
    ensures NeverFires(render, family, max) <==> LinesFit(line, max)
  {
    if LinesFit(line, max) {
      forall data, chunks | Batch(render, family, data, chunks) && |chunks| <= max
        ensures FinalCheckPasses(render, data, chunks)
      {
        ShortLinesPass(render, family, line, data, chunks, max);
      }
    } else {
      var i: nat, n: nat :| 1 <= i <= n <= max && n > 1 && |line(i, n)| > PART_COUNT_RESERVE;
      LongLineFires(render, family, line, i, n, max);
    }
  }
}
