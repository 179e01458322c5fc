/**
 Building Telegram messages from an alert batch in template mode
 (internal/service/delivery_service.go:395-485, internal/template/renderer.go:193-270).

 Template execution is a function of its data, given as a parameter. A char is a rune.
 */
module Chunking {
  import opened Packing
  import Splitter

  const MAX_CHARS: nat := 4096
  const PART_COUNT_RESERVE: nat := 16

  datatype Alert = Alert(status: string, body: string)

  datatype Payload = Payload(header: string, alerts: seq<Alert>, truncated: int)

  datatype MessageData = MessageData(
    header: string,
    firing: nat,
    resolved: nat,
    total: int,
    truncated: int,
    alerts: seq<Alert>,
    partIndex: nat,
    partCount: nat)

  datatype Rendered = Text(text: string) | RenderError

  type Render = MessageData -> Rendered

  function CountStatus(alerts: seq<Alert>, status: string): nat {
    if alerts == [] then 0 else (if alerts[0].status == status then 1 else 0) + CountStatus(alerts[1..], status)
  }

  lemma {:induction false} CountAppend(xs: seq<Alert>, ys: seq<Alert>, status: string)
    ensures CountStatus(xs + ys, status) == CountStatus(xs, status) + CountStatus(ys, status)
  {
    if xs == [] {
      assert xs + ys == ys;
    } else {
      assert (xs + ys)[1..] == xs[1..] + ys;
      CountAppend(xs[1..], ys, status);
    }
  }

  /** The data of one message: the batch header, these alerts, counted anew. */
  function Clone(data: MessageData, alerts: seq<Alert>, partIndex: nat, partCount: nat): MessageData {
    data.(alerts := alerts, total := |alerts| + data.truncated, firing := CountStatus(alerts, "firing"),
          resolved := CountStatus(alerts, "resolved"), partIndex := partIndex, partCount := partCount)
  }

  method CloneWithAlerts(data: MessageData, alerts: seq<Alert>, partIndex: nat, partCount: nat) returns (clone: MessageData)
    ensures clone == Clone(data, alerts, partIndex, partCount)
  {
    clone := data.(alerts := alerts, total := |alerts| + data.truncated, firing := 0, resolved := 0);
    for k := 0 to |alerts|
      invariant clone == data.(alerts := alerts, total := |alerts| + data.truncated,
                               firing := CountStatus(alerts[..k], "firing"), resolved := CountStatus(alerts[..k], "resolved"))
    {
      assert alerts[..k + 1] == alerts[..k] + [alerts[k]];
      CountAppend(alerts[..k], [alerts[k]], "firing");
      CountAppend(alerts[..k], [alerts[k]], "resolved");
      if alerts[k].status == "firing" {
        clone := clone.(firing := clone.firing + 1);
      } else if alerts[k].status == "resolved" {
        clone := clone.(resolved := clone.resolved + 1);
      }
    }
    assert alerts[..|alerts|] == alerts;
    clone := clone.(partIndex := partIndex, partCount := partCount);
  }

  /** Each alert sanitized, the counters over the raw statuses. */
  method BuildData(payload: Payload, sanitize: Alert -> Alert) returns (data: MessageData)
    ensures |data.alerts| == |payload.alerts|
    ensures forall i :: 0 <= i < |data.alerts| ==> data.alerts[i] == sanitize(payload.alerts[i])
    ensures data == MessageData(payload.header, CountStatus(payload.alerts, "firing"), CountStatus(payload.alerts, "resolved"),
                                |payload.alerts| + payload.truncated, payload.truncated, data.alerts, 1, 1)
  {
    var alerts: seq<Alert> := [];
    for k := 0 to |payload.alerts|
      invariant |alerts| == k
      invariant forall i :: 0 <= i < k ==> alerts[i] == sanitize(payload.alerts[i])
    {
      alerts := alerts + [sanitize(payload.alerts[k])];
    }
    data := MessageData(payload.header, CountStatus(payload.alerts, "firing"), CountStatus(payload.alerts, "resolved"),
                        |payload.alerts| + payload.truncated, payload.truncated, alerts, 1, 1);
  }

  // ---------------------------------------------------------------------------------------------
  // Measuring
  // ---------------------------------------------------------------------------------------------

  function Shell(data: MessageData): MessageData { Clone(data, [], 1, 1) }

  function Single(data: MessageData, a: Alert): MessageData { Clone(data, [a], 1, 1) }

  function Length(r: Rendered): nat { if r.Text? then |r.text| else 0 }

  /** What an alert adds to the empty shell, or its whole rendering when that came out shorter than the shell. */
  function Measured(render: Render, data: MessageData, a: Alert): nat {
    var shell, alone := Length(render(Shell(data))), Length(render(Single(data, a)));
    if alone < shell then alone else alone - shell
  }

  function Budget(render: Render, data: MessageData): int {
    MAX_CHARS - (Length(render(Shell(data))) + PART_COUNT_RESERVE)
  }

  datatype BuildError =
    | RenderFailed
    | HeaderTooLong
    | AlertTooLong(measured: nat)
    | ChunkTooLong(number: nat)

  datatype Built = Messages(parts: seq<string>) | Failed(error: BuildError)

  /** What the reserve is meant to guarantee of the i-th chunk: it renders to no more than shell, reserve and its measured alerts. */
  predicate WithinReserve(render: Render, data: MessageData, chunks: seq<seq<Alert>>, i: nat)
    requires i < |chunks|
  {
    Length(render(Clone(data, chunks[i], i + 1, |chunks|)))
    <= Length(render(Shell(data))) + PART_COUNT_RESERVE + Sum(a => Measured(render, data, a), chunks[i])
  }

  predicate Outgrown(render: Render, data: MessageData, chunks: seq<seq<Alert>>, number: nat) {
    1 <= number <= |chunks| && !WithinReserve(render, data, chunks, number - 1)
  }

  /** The chunks of a batch: complete, in order, packed greedily within the budget, and as few as possible. */
  ghost predicate Chunked(render: Render, data: MessageData, chunks: seq<seq<Alert>>) {
    var size := (a: Alert) => Measured(render, data, a);
    && Budget(render, data) > 0
    && Splits(chunks, data.alerts)
    && Within(size, chunks, Budget(render, data))
    && Greedy(size, chunks, Budget(render, data))
    && forall other {:trigger Within(size, other, Budget(render, data))} ::
         Concat(other) == data.alerts && Within(size, other, Budget(render, data)) ==> |chunks| <= |other|
  }

  predicate RejectsAlert(render: Render, data: MessageData, a: Alert, budget: nat, error: BuildError) {
    if render(Single(data, a)).RenderError? then error == RenderFailed
    else error == AlertTooLong(Measured(render, data, a)) && Measured(render, data, a) > budget
  }

  predicate RejectsChunk(render: Render, data: MessageData, chunks: seq<seq<Alert>>, i: nat, error: BuildError)
    requires i < |chunks|
  {
    var rendered := render(Clone(data, chunks[i], i + 1, |chunks|));
    if rendered.RenderError? then error == RenderFailed else error == ChunkTooLong(i + 1) && |rendered.text| > MAX_CHARS
  }

  /** The final size check passes for every chunk. */
  predicate FinalCheckPasses(render: Render, data: MessageData, chunks: seq<seq<Alert>>) {
    forall i :: 0 <= i < |chunks| ==> Length(render(Clone(data, chunks[i], i + 1, |chunks|))) <= MAX_CHARS
  }

  /** One of the renderings made for this batch fails. */
  predicate SomeRenderFails(render: Render, data: MessageData, chunks: seq<seq<Alert>>) {
    || render(data).RenderError? || render(Clone(data, [], 1, 1)).RenderError?
    || (exists i :: 0 <= i < |data.alerts| && render(Clone(data, [data.alerts[i]], 1, 1)).RenderError?)
    || (exists i :: 0 <= i < |chunks| && render(Clone(data, chunks[i], i + 1, |chunks|)).RenderError?)
  }

  /** The alert alone renders too long: longer than the limit less the reserve, or, below the shell, than the room beside it. */
  predicate Oversized(render: Render, data: MessageData, a: Alert, measured: nat) {
    var shell, alone := Length(render(Clone(data, [], 1, 1))), Length(render(Clone(data, [a], 1, 1)));
    && render(Clone(data, [a], 1, 1)).Text?
    && (if alone < shell then measured == alone > 4096 - 16 - shell else alone > 4096 - 16 && measured == alone - shell)
  }

  method MeasureAlerts(render: Render, data: MessageData, budget: nat) returns (error: BuildError, ok: bool)
    requires render(Shell(data)).Text? && budget == Budget(render, data)
    ensures ok ==> forall i :: 0 <= i < |data.alerts| ==> Measured(render, data, data.alerts[i]) <= budget
    ensures !ok ==> exists i | 0 <= i < |data.alerts| :: RejectsAlert(render, data, data.alerts[i], budget, error)
  {
    for k := 0 to |data.alerts|
      invariant forall i :: 0 <= i < k ==> Measured(render, data, data.alerts[i]) <= budget
    {
      var clone := CloneWithAlerts(data, [data.alerts[k]], 1, 1);
      var rendered := render(clone);
      if rendered.RenderError? {
        assert RejectsAlert(render, data, data.alerts[k], budget, RenderFailed);
        return RenderFailed, false;
      }
      var measured := |rendered.text| - Length(render(Shell(data)));
      if measured < 0 {
        measured := |rendered.text|;
      }
      assert measured == Measured(render, data, data.alerts[k]);
      if measured > budget {
        assert RejectsAlert(render, data, data.alerts[k], budget, AlertTooLong(measured));
        return AlertTooLong(measured), false;
      }
    }
    return RenderFailed, true;
  }

  method RenderChunks(render: Render, data: MessageData, chunks: seq<seq<Alert>>) returns (r: Built)
    ensures r.Messages? ==>
              && |r.parts| == |chunks|
              && forall i :: 0 <= i < |chunks| ==>
                   render(Clone(data, chunks[i], i + 1, |chunks|)) == Text(r.parts[i]) && |r.parts[i]| <= MAX_CHARS
    ensures r.Failed? ==> exists i: nat | i < |chunks| :: RejectsChunk(render, data, chunks, i, r.error)
  {
    var messages: seq<string> := [];
    for idx := 0 to |chunks|
      invariant |messages| == idx
      invariant forall i :: 0 <= i < idx ==>
                  render(Clone(data, chunks[i], i + 1, |chunks|)) == Text(messages[i]) && |messages[i]| <= MAX_CHARS
    {
      var clone := CloneWithAlerts(data, chunks[idx], idx + 1, |chunks|);
      var rendered := render(clone);
      if rendered.RenderError? {
        assert RejectsChunk(render, data, chunks, idx, RenderFailed);
        return Failed(RenderFailed);
      }
      if |rendered.text| > MAX_CHARS {
        assert RejectsChunk(render, data, chunks, idx, ChunkTooLong(idx + 1));
        return Failed(ChunkTooLong(idx + 1));
      }
      messages := messages + [rendered.text];
    }
    return Messages(messages);
  }

  lemma GreedyChunked(render: Render, data: MessageData, chunks: seq<seq<Alert>>)
    requires Budget(render, data) > 0 && Splits(chunks, data.alerts)
    requires var size := (a: Alert) => Measured(render, data, a);
             Within(size, chunks, Budget(render, data)) && Greedy(size, chunks, Budget(render, data))
    ensures Chunked(render, data, chunks)
  {
    var size := (a: Alert) => Measured(render, data, a);
    forall other | Concat(other) == data.alerts && Within(size, other, Budget(render, data))
      ensures |chunks| <= |other|
    {
      GreedyIsMinimal(size, data.alerts, chunks, other, Budget(render, data));
    }
  }

  lemma NoAlertsIsShell(data: MessageData)
    requires data.alerts == [] && data.firing == data.resolved == 0 && data.total == data.truncated
    requires data.partIndex == data.partCount == 1
    ensures Shell(data) == data
  {
  }

  lemma ReservedFits(render: Render, data: MessageData, chunks: seq<seq<Alert>>, i: nat)
    requires Chunked(render, data, chunks) && i < |chunks| && WithinReserve(render, data, chunks, i)
    ensures Length(render(Clone(data, chunks[i], i + 1, |chunks|))) <= MAX_CHARS
  {
  }

  lemma RejectedOutgrew(render: Render, data: MessageData, chunks: seq<seq<Alert>>, error: BuildError)
    requires Chunked(render, data, chunks) && error.ChunkTooLong?
    requires exists i: nat | i < |chunks| :: RejectsChunk(render, data, chunks, i, error)
    ensures Outgrown(render, data, chunks, error.number)
  {
    var i: nat :| i < |chunks| && RejectsChunk(render, data, chunks, i, error);
    if WithinReserve(render, data, chunks, i) {
      ReservedFits(render, data, chunks, i);
    }
  }

  /**
   Success means at least one part, each within the limit: the whole batch in one, or one part per
   chunk of a minimal chunking. The final size check fires only for a chunk that outgrew the reserve.
   */
  method BuildMessages(render: Render, payload: Payload, sanitize: Alert -> Alert)
    returns (r: Built, data: MessageData, chunks: seq<seq<Alert>>)
    ensures |data.alerts| == |payload.alerts| && forall i :: 0 <= i < |data.alerts| ==> data.alerts[i] == sanitize(payload.alerts[i])
    ensures data == MessageData(payload.header, CountStatus(payload.alerts, "firing"), CountStatus(payload.alerts, "resolved"),
                                |payload.alerts| + payload.truncated, payload.truncated, data.alerts, 1, 1)
    ensures r.Messages? ==> r.parts != [] && forall i :: 0 <= i < |r.parts| ==> |r.parts[i]| <= 4096
    ensures r.Messages? && Length(render(data)) > 4096 ==>
              forall i :: 0 <= i < |data.alerts| ==> Length(render(Clone(data, [data.alerts[i]], 1, 1))) <= 4096 - 16
    ensures render(data).Text? && Length(render(data)) <= MAX_CHARS ==> r == Messages([render(data).text])
    ensures r.Messages? ==> render(data).Text?
    ensures r.Failed? && r.error.RenderFailed? ==> SomeRenderFails(render, data, chunks)
    ensures r.Messages? && Length(render(data)) > MAX_CHARS ==>
              && Chunked(render, data, chunks) && |r.parts| == |chunks|
              && forall i :: 0 <= i < |chunks| ==> render(Clone(data, chunks[i], i + 1, |chunks|)) == Text(r.parts[i])
    ensures r.Failed? && r.error.ChunkTooLong? ==>
              Chunked(render, data, chunks) && Outgrown(render, data, chunks, r.error.number)
    ensures r.Failed? && r.error.AlertTooLong? ==>
              exists i :: 0 <= i < |data.alerts| && Measured(render, data, data.alerts[i]) > Budget(render, data)
    ensures r.Failed? && r.error.AlertTooLong? ==>
              exists i :: 0 <= i < |data.alerts| && Oversized(render, data, data.alerts[i], r.error.measured)
    ensures r.Failed? && r.error.HeaderTooLong? ==> Length(render(Clone(data, [], 1, 1))) + 16 >= 4096
  {
    chunks := [];
    data := BuildData(payload, sanitize);
    var whole := render(data);
    if whole.RenderError? {
      return Failed(RenderFailed), data, chunks;
    }
    if |whole.text| <= MAX_CHARS {
      return Messages([whole.text]), data, chunks;
    }
    var shellData := CloneWithAlerts(data, [], 1, 1);
    var emptyShell := render(shellData);
    if emptyShell.RenderError? {
      return Failed(RenderFailed), data, chunks;
    }
    var headerBudget := |emptyShell.text| + PART_COUNT_RESERVE;
    var alertBudget := MAX_CHARS - headerBudget;
    if alertBudget <= 0 {
      return Failed(HeaderTooLong), data, chunks;
    }
    var error, ok := MeasureAlerts(render, data, alertBudget);
    if !ok {
      return Failed(error), data, chunks;
    }
    var size := (a: Alert) => Measured(render, data, a);
    chunks := Pack(data.alerts, size, alertBudget);
    GreedyChunked(render, data, chunks);
    r := RenderChunks(render, data, chunks);
    if data.alerts == [] {
      NoAlertsIsShell(data);
    }
    if r.Failed? && r.error.ChunkTooLong? {
      RejectedOutgrew(render, data, chunks, r.error);
    }
  }

  /** If no chunk of this batch outgrows the reserve, the final check passes. */
  lemma FinalCheck(render: Render, data: MessageData, chunks: seq<seq<Alert>>)
    requires Chunked(render, data, chunks) && forall i :: 0 <= i < |chunks| ==> WithinReserve(render, data, chunks, i)
    ensures FinalCheckPasses(render, data, chunks)
  {
    forall i | 0 <= i < |chunks|
      ensures Length(render(Clone(data, chunks[i], i + 1, |chunks|))) <= MAX_CHARS
    {
      ReservedFits(render, data, chunks, i);
    }
  }

  // ---------------------------------------------------------------------------------------------
  // The counters of the parts
  // ---------------------------------------------------------------------------------------------

  /** The firing and resolved counters shown in the parts first..n, added up. */
  function ShownFrom(data: MessageData, chunks: seq<seq<Alert>>, first: nat, n: nat): (nat, nat) {
    if chunks == [] then (0, 0)
    else
      var d, rest := Clone(data, chunks[0], first, n), ShownFrom(data, chunks[1..], first + 1, n);
      (d.firing + rest.0, d.resolved + rest.1)
  }

  /** Chunking loses and repeats no alert: the counters of the parts add up to those of the whole batch. */
  lemma {:induction false} CountersConserved(data: MessageData, chunks: seq<seq<Alert>>, alerts: seq<Alert>, first: nat, n: nat)
    requires Concat(chunks) == alerts
    ensures ShownFrom(data, chunks, first, n) == (CountStatus(alerts, "firing"), CountStatus(alerts, "resolved"))
  {
    if chunks != [] {
      var rest := Concat(chunks[1..]);
      CountersConserved(data, chunks[1..], rest, first + 1, n);
      CountAppend(chunks[0], rest, "firing");
      CountAppend(chunks[0], rest, "resolved");
    }
  }
}
