/**
 The shape of the shipped template (templates/telegram_alert.tmpl): a part line, a head that prints the
 counters, the alert bodies, and a tail about truncated alerts. What the template prints of the batch
 fields before and after the counters is a function of the batch header.
 */
module ShippedTemplate {
  import opened Packing
  import opened Chunking
  import opened Reserve
  import Splitter

  // ---------------------------------------------------------------------------------------------
  // Decimal numbers
  // ---------------------------------------------------------------------------------------------

  /** The number of decimal digits. */
  function Digits(n: nat): (r: nat)
    ensures r >= 1
  {
    if n < 10 then 1 else Digits(n / 10) + 1
  }

  function Digit(d: nat): char
    requires d < 10
  {
    "0123456789"[d]
  }

  function Decimal(n: nat): (r: string)
    ensures |r| == Digits(n) && !Splitter.IsSpace(r[0])
  {
    if n < 10 then [Digit(n)] else Decimal(n / 10) + [Digit(n % 10)]
  }

  lemma {:induction false} DigitsMonotone(m: nat, n: nat)
    requires m <= n
    ensures Digits(m) <= Digits(n)
    decreases n
  {
    if m >= 10 {
      DigitsMonotone(m / 10, n / 10);
    }
  }

  lemma {:induction false} DigitsAtMost(n: nat)
    ensures Digits(n) <= 1 + n / 10
  {
    if n >= 10 {
      DigitsAtMost(n / 10);
    }
  }

  function Pow10(k: nat): (r: nat)
    ensures r >= 1 && (k >= 1 ==> r >= 10)
  {
    if k == 0 then 1 else 10 * Pow10(k - 1)
  }

  lemma {:induction false} DigitsBound(n: nat)
    ensures n < Pow10(Digits(n))
  {
    if n >= 10 {
      DigitsBound(n / 10);
    }
  }

  lemma {:induction false} BoundDigits(n: nat, k: nat)
    requires k >= 1 && n < Pow10(k)
    ensures Digits(n) <= k
    decreases k
  {
    if n >= 10 {
      BoundDigits(n / 10, k - 1);
    }
  }

  lemma {:induction false} Pow10Add(a: nat, b: nat)
    ensures Pow10(a + b) == Pow10(a) * Pow10(b)
  {
    if a > 0 {
      Pow10Add(a - 1, b);
      assert Pow10(a + b) == 10 * Pow10(a - 1 + b);
    }
  }

  lemma SumBelowProduct(x: nat, y: nat)
    requires x >= 10 && y >= 10
    ensures x + y <= x * y
  {
    assert x * y >= 10 * y;
    assert y * x >= 10 * x;
  }

  /** A sum has no more digits than its terms together. */
  lemma DigitsAdd(m: nat, n: nat)
    ensures Digits(m + n) <= Digits(m) + Digits(n)
  {
    DigitsBound(m);
    DigitsBound(n);
    Pow10Add(Digits(m), Digits(n));
    SumBelowProduct(Pow10(Digits(m)), Pow10(Digits(n)));
    BoundDigits(m + n, Digits(m) + Digits(n));
  }

  // ---------------------------------------------------------------------------------------------
  // Templates of a part line, a head, the bodies and a tail
  // ---------------------------------------------------------------------------------------------

  /** By batch header, firing, resolved and total count. */
  type HeadText = (string, nat, nat, int) -> string

  /** By the number of alerts that are not shown. */
  type TailText = int -> string

  function BodyLength(a: Alert): nat { |a.body| }

  function Bodies(alerts: seq<Alert>): string {
    if alerts == [] then "" else alerts[0].body + Bodies(alerts[1..])
  }

  function LineOf(line: PartLine, d: MessageData): string {
    if d.partCount > 1 then line(d.partIndex, d.partCount) else ""
  }

  /** An empty line stands between head and bodies; trimmed as Renderer.Render does. */
  function PartText(head: HeadText, tail: TailText, line: PartLine, d: MessageData): string {
    Splitter.Trim(LineOf(line, d) + head(d.header, d.firing, d.resolved, d.total) + "\n\n"
                  + (Bodies(d.alerts) + tail(d.total - |d.alerts|)))
  }

  function Rendering(head: HeadText, tail: TailText, line: PartLine): Render {
    (d: MessageData) => Text(PartText(head, tail, line, d))
  }

  predicate StartsSolid(s: string) { s == "" || !Splitter.IsSpace(s[0]) }

  predicate EndsSolid(s: string) { s == "" || !Splitter.IsSpace(s[|s| - 1]) }

  /** No text begins or ends in a space where that would be trimmed, and the head is never empty. */
  ghost predicate Tidy(head: HeadText, tail: TailText, line: PartLine) {
    && (forall h, f, r, t :: head(h, f, r, t) != "" && StartsSolid(head(h, f, r, t)) && EndsSolid(head(h, f, r, t)))
    && (forall m :: EndsSolid(tail(m)))
    && (forall i, n :: StartsSolid(line(i, n)))
  }

  lemma {:induction false} BodiesSolid(alerts: seq<Alert>)
    requires Solid(alerts)
    ensures |Bodies(alerts)| == Sum(BodyLength, alerts) && EndsSolid(Bodies(alerts))
    ensures Bodies(alerts) == "" <==> alerts == []
  {
    if alerts != [] {
      assert SolidBody(alerts[0]);
      BodiesSolid(alerts[1..]);
    }
  }

  /** Nothing but the empty line after the head is trimmed off, and that only when nothing follows. */
  lemma TrimmedLength(head: string, bodies: string, tail: string)
    requires head != "" && StartsSolid(head) && EndsSolid(head) && EndsSolid(bodies) && EndsSolid(tail)
    ensures |Splitter.Trim(head + "\n\n" + (bodies + tail))|
         == |head| + (if bodies == "" && tail == "" then 0 else 2) + |bodies| + |tail|
  {
    var s := head + "\n\n" + (bodies + tail);
    assert s[0] == head[0] && s[|head| - 1] == head[|head| - 1];
    assert Splitter.TextStart(s, 0) == 0;
    if tail != "" {
      assert s[|s| - 1] == tail[|tail| - 1];
    } else if bodies != "" {
      assert s[|s| - 1] == bodies[|bodies| - 1];
    } else {
      assert s[|head|] == s[|head| + 1] == '\n';
    }
  }

  /** The runes of the bodies and the tail, with the empty line before them. */
  function RestLength(alerts: seq<Alert>, tailLength: nat): nat {
    (if alerts == [] && tailLength == 0 then 0 else 2) + Sum(BodyLength, alerts) + tailLength
  }

  lemma LineAndHead(l: string, h: string)
    requires h != "" && StartsSolid(h) && EndsSolid(h) && StartsSolid(l)
    ensures l + h != "" && StartsSolid(l + h) && EndsSolid(l + h)
  {
    assert (l + h)[|l + h| - 1] == h[|h| - 1] && (l + h)[0] == if l == "" then h[0] else l[0];
  }

  lemma PartLength(head: HeadText, tail: TailText, line: PartLine, d: MessageData)
    requires Tidy(head, tail, line) && Solid(d.alerts)
    ensures |PartText(head, tail, line, d)|
         == |LineOf(line, d)| + |head(d.header, d.firing, d.resolved, d.total)| + RestLength(d.alerts, |tail(d.total - |d.alerts|)|)
  {
    var l, h, t := LineOf(line, d), head(d.header, d.firing, d.resolved, d.total), tail(d.total - |d.alerts|);
    assert h != "" && StartsSolid(h) && EndsSolid(h) && EndsSolid(t) && StartsSolid(l);
    BodiesSolid(d.alerts);
    LineAndHead(l, h);
    TrimmedLength(l + h, Bodies(d.alerts), t);
  }

  /** Every part is as long as its line, its head, its bodies and its tail. */
  ghost predicate Sized(render: Render, head: HeadText, tail: TailText, line: PartLine) {
    forall d: MessageData {:trigger render(d)} :: Solid(d.alerts) ==>
      Length(render(d)) == |LineOf(line, d)| + |head(d.header, d.firing, d.resolved, d.total)|
                           + RestLength(d.alerts, |tail(d.total - |d.alerts|)|)
  }

  lemma RenderingSized(head: HeadText, tail: TailText, line: PartLine)
    requires Tidy(head, tail, line)
    ensures Sized(Rendering(head, tail, line), head, tail, line)
  {
    forall d: MessageData | Solid(d.alerts)
      ensures Length(Rendering(head, tail, line)(d)) == |LineOf(line, d)| + |head(d.header, d.firing, d.resolved, d.total)|
                                                        + RestLength(d.alerts, |tail(d.total - |d.alerts|)|)
    {
      PartLength(head, tail, line, d);
    }
  }

  /** The part numbers change nothing but the part line. */
  lemma SizedPrefixed(render: Render, head: HeadText, tail: TailText, line: PartLine)
    requires Sized(render, head, tail, line)
    ensures Prefixed(render, line)
  {
    forall d: MessageData, xs: seq<Alert>, i: nat, n: nat | n > 1 && Solid(xs)
      ensures Length(render(Clone(d, xs, i, n))) == |line(i, n)| + Length(render(Clone(d, xs, 1, 1)))
    {
      var numbered, only := Clone(d, xs, i, n), Clone(d, xs, 1, 1);
      assert LineOf(line, only) == "" && LineOf(line, numbered) == line(i, n);
      assert Length(render(numbered)) == |line(i, n)| + |head(only.header, only.firing, only.resolved, only.total)|
                                         + RestLength(xs, |tail(only.total - |xs|)|);
    }
  }

  // ---------------------------------------------------------------------------------------------
  // The texts of the shipped template
  // ---------------------------------------------------------------------------------------------

  function Number(t: int): string {
    if t < 0 then "-" + Decimal(-t) else Decimal(t)
  }

  function Counters(firing: nat, resolved: nat, total: int): string {
    Decimal(firing) + " firing"
    + (if resolved > 0 then " \U{B7} " + Decimal(resolved) + " resolved" else "")
    + (if total != 0 then " \U{B7} " + Number(total) + " total" else "")
  }

  /** What the template prints of the batch fields before and after the counters, by batch header. */
  datatype Frame = Frame(before: string -> string, after: string -> string)

  function ShippedHead(frame: Frame): HeadText {
    (header: string, firing: nat, resolved: nat, total: int) =>
      frame.before(header) + Counters(firing, resolved, total) + frame.after(header)
  }

  function ShippedTail(more: int): string {
    if more > 0 then "\n<i>\U{2026} and " + Decimal(more) + " more alerts in this group</i>" else ""
  }

  function ShippedLine(i: nat, n: nat): (r: string)
    ensures |r| == 20 + Digits(i) + Digits(n) && r[0] == '<'
  {
    "<b>\U{1F4E6} Part " + Decimal(i) + " of " + Decimal(n) + "</b>\n\n"
  }

  /** The text before the counters begins with an icon, and the text after them does not end in a space. */
  ghost predicate Framed(frame: Frame) {
    forall h :: frame.before(h) != "" && StartsSolid(frame.before(h)) && EndsSolid(frame.after(h))
  }

  function CountersLength(firing: nat, resolved: nat, total: nat): nat {
    Digits(firing) + 7 + (if resolved > 0 then 12 + Digits(resolved) else 0) + (if total > 0 then 9 + Digits(total) else 0)
  }

  lemma CountersSolid(firing: nat, resolved: nat, total: int)
    ensures var c := Counters(firing, resolved, total); c != "" && EndsSolid(c)
    ensures total >= 0 ==> |Counters(firing, resolved, total)| == CountersLength(firing, resolved, total)
  {
  }

  function TailLength(more: int): nat {
    if more > 0 then 40 + Digits(more) else 0
  }

  lemma TailSolid(more: int)
    ensures EndsSolid(ShippedTail(more)) && |ShippedTail(more)| == TailLength(more)
  {
  }

  function Shipped(frame: Frame): Render {
    Rendering(ShippedHead(frame), ShippedTail, ShippedLine)
  }

  lemma ThreeSolid(a: string, b: string, c: string)
    requires a != "" && b != "" && StartsSolid(a) && EndsSolid(b) && EndsSolid(c)
    ensures a + b + c != "" && StartsSolid(a + b + c) && EndsSolid(a + b + c)
  {
    assert (a + b + c)[0] == a[0];
    assert (a + b + c)[|a + b + c| - 1] == if c == "" then b[|b| - 1] else c[|c| - 1];
  }

  lemma ShippedTidy(frame: Frame, line: PartLine)
    requires Framed(frame) && forall i, n :: StartsSolid(line(i, n))
    ensures Tidy(ShippedHead(frame), ShippedTail, line)
  {
    forall h: string, f: nat, r: nat, t: int
      ensures var text := ShippedHead(frame)(h, f, r, t); text != "" && StartsSolid(text) && EndsSolid(text)
    {
      CountersSolid(f, r, t);
      ThreeSolid(frame.before(h), Counters(f, r, t), frame.after(h));
    }
    forall m
      ensures EndsSolid(ShippedTail(m))
    {
      TailSolid(m);
    }
  }

  // ---------------------------------------------------------------------------------------------
  // When measured sizes add up
  // ---------------------------------------------------------------------------------------------

  /** A template with the counters and the tail of the shipped one, and any part line. */
  ghost predicate Counted(render: Render, frameLength: string -> nat, line: PartLine) {
    forall d: MessageData {:trigger render(d)} :: Solid(d.alerts) && d.total >= 0 ==>
      Length(render(d)) == |LineOf(line, d)| + frameLength(d.header) + CountersLength(d.firing, d.resolved, d.total)
                           + RestLength(d.alerts, TailLength(d.total - |d.alerts|))
  }

  function FrameLength(frame: Frame): string -> nat {
    (h: string) => |frame.before(h)| + |frame.after(h)|
  }

  lemma ShippedCounted(frame: Frame, line: PartLine)
    requires Framed(frame) && forall i, n :: StartsSolid(line(i, n))
    ensures Counted(Rendering(ShippedHead(frame), ShippedTail, line), FrameLength(frame), line)
  {
    ShippedTidy(frame, line);
    forall d: MessageData | Solid(d.alerts) && d.total >= 0
      ensures Length(Rendering(ShippedHead(frame), ShippedTail, line)(d))
           == |LineOf(line, d)| + FrameLength(frame)(d.header) + CountersLength(d.firing, d.resolved, d.total)
              + RestLength(d.alerts, TailLength(d.total - |d.alerts|))
    {
      PartLength(ShippedHead(frame), ShippedTail, line, d);
      CountersSolid(d.firing, d.resolved, d.total);
      TailSolid(d.total - |d.alerts|);
    }
  }

  /** The batches that leave out `truncated` alerts. */
  function LeavingOut(truncated: nat): MessageData -> bool {
    (d: MessageData) => d.truncated == truncated
  }

  lemma ShellLength(render: Render, frameLength: string -> nat, line: PartLine, d: MessageData, truncated: nat)
    requires Counted(render, frameLength, line) && d.truncated == truncated
    ensures Length(render(Shell(d))) == frameLength(d.header) + CountersLength(0, 0, truncated)
                                        + (if truncated == 0 then 0 else 2) + TailLength(truncated)
  {
    assert Shell(d).alerts == [] && Shell(d).total == truncated;
  }

  lemma OnlyPartLength(render: Render, frameLength: string -> nat, line: PartLine, d: MessageData, xs: seq<Alert>, truncated: nat)
    requires Counted(render, frameLength, line) && d.truncated == truncated && Solid(xs) && xs != []
    ensures Length(render(Clone(d, xs, 1, 1)))
         == frameLength(d.header) + CountersLength(CountStatus(xs, "firing"), CountStatus(xs, "resolved"), |xs| + truncated)
            + 2 + Sum(BodyLength, xs) + TailLength(truncated)
  {
    var only := Clone(d, xs, 1, 1);
    assert only.alerts == xs && only.total == |xs| + truncated && LineOf(line, only) == "";
  }

  /** What every alert measures beyond its body, its word in the counters aside. */
  function Base(truncated: nat): (r: nat) {
    DigitsMonotone(truncated, truncated + 1);
    if truncated == 0 then 12 else Digits(truncated + 1) - Digits(truncated)
  }

  function Word(a: Alert): nat { if a.status == "resolved" then 13 else 0 }

  lemma CountOne(a: Alert, status: string)
    ensures CountStatus([a], status) == if a.status == status then 1 else 0
  {
    assert [a][1..] == [];
  }

  lemma AlertMeasure(render: Render, frameLength: string -> nat, line: PartLine, d: MessageData, a: Alert, truncated: nat)
    requires Counted(render, frameLength, line) && d.truncated == truncated && SolidBody(a)
    ensures Measured(render, d, a) == Base(truncated) + Word(a) + BodyLength(a)
  {
    assert Solid([a]);
    ShellLength(render, frameLength, line, d, truncated);
    OnlyPartLength(render, frameLength, line, d, [a], truncated);
    CountOne(a, "firing");
    CountOne(a, "resolved");
    SumOne(BodyLength, a);
    DigitsMonotone(truncated, truncated + 1);
  }

  /** k times base. */
  function Repeat(base: nat, k: nat): nat { if k == 0 then 0 else base + Repeat(base, k - 1) }

  lemma {:induction false} SizesSum(size: Alert -> nat, base: nat, xs: seq<Alert>)
    requires forall i :: 0 <= i < |xs| ==> size(xs[i]) == base + Word(xs[i]) + BodyLength(xs[i])
    ensures Sum(size, xs) == Repeat(base, |xs|) + 13 * CountStatus(xs, "resolved") + Sum(BodyLength, xs)
  {
    if xs != [] {
      SizesSum(size, base, xs[1..]);
    }
  }

  lemma MeasuresSum(render: Render, frameLength: string -> nat, line: PartLine, d: MessageData, xs: seq<Alert>, truncated: nat)
    requires Counted(render, frameLength, line) && d.truncated == truncated && Solid(xs)
    ensures Sum(a => Measured(render, d, a), xs)
         == Repeat(Base(truncated), |xs|) + 13 * CountStatus(xs, "resolved") + Sum(BodyLength, xs)
  {
    var size := (a: Alert) => Measured(render, d, a);
    forall i | 0 <= i < |xs|
      ensures size(xs[i]) == Base(truncated) + Word(xs[i]) + BodyLength(xs[i])
    {
      AlertMeasure(render, frameLength, line, d, xs[i], truncated);
    }
    SizesSum(size, Base(truncated), xs);
  }

  lemma {:induction false} CountsWithin(xs: seq<Alert>)
    ensures CountStatus(xs, "firing") + CountStatus(xs, "resolved") <= |xs|
  {
    if xs != [] {
      CountsWithin(xs[1..]);
    }
  }

  /** By how much the counters of k alerts outgrow those of one unlabelled alert. */
  function Growth(firing: nat, resolved: nat, k: nat, truncated: nat): int {
    Digits(firing) - 1 + (if resolved > 0 then 12 + Digits(resolved) else 0) + Digits(k + truncated) - Digits(1 + truncated)
  }

  lemma CompareLengths(fixed: nat, firing: nat, resolved: nat, k: nat, truncated: nat, bodies: nat)
    requires k >= 1
    ensures fixed + CountersLength(firing, resolved, k + truncated) + 2 + bodies
            <= fixed + CountersLength(0, 0, truncated) + (if truncated == 0 then 0 else 2)
               + (Repeat(Base(truncated), k) + 13 * resolved + bodies)
        <==> Growth(firing, resolved, k, truncated) <= Repeat(Base(truncated), k - 1) + 13 * resolved
  {
    DigitsMonotone(truncated, truncated + 1);
  }

  lemma FitsMeasureIff(render: Render, frameLength: string -> nat, line: PartLine, d: MessageData, xs: seq<Alert>, truncated: nat)
    requires Counted(render, frameLength, line) && d.truncated == truncated && Solid(xs) && xs != []
    ensures FitsMeasure(render, d, xs)
        <==> Growth(CountStatus(xs, "firing"), CountStatus(xs, "resolved"), |xs|, truncated)
             <= Repeat(Base(truncated), |xs| - 1) + 13 * CountStatus(xs, "resolved")
  {
    ShellLength(render, frameLength, line, d, truncated);
    OnlyPartLength(render, frameLength, line, d, xs, truncated);
    MeasuresSum(render, frameLength, line, d, xs, truncated);
    CompareLengths(frameLength(d.header) + TailLength(truncated), CountStatus(xs, "firing"), CountStatus(xs, "resolved"), |xs|, truncated,
                   Sum(BodyLength, xs));
  }

  lemma GrowthBound(firing: nat, resolved: nat, k: nat, truncated: nat)
    requires firing + resolved <= k && k >= 1
    ensures Growth(firing, resolved, k, truncated) <= k - 1 + 13 * resolved
  {
    DigitsMonotone(firing, k);
    DigitsAtMost(k);
    DigitsAtMost(resolved);
    if k > 1 {
      DigitsAdd(1 + truncated, k - 1);
      DigitsAtMost(k - 1);
    }
  }

  lemma {:induction false} RepeatAtLeast(base: nat, k: nat)
    ensures if base == 0 then Repeat(base, k) == 0 else Repeat(base, k) >= k
  {
    if k > 0 {
      RepeatAtLeast(base, k - 1);
    }
  }

  lemma GrowthFits(firing: nat, resolved: nat, k: nat, truncated: nat)
    requires firing + resolved <= k && k >= 1 && Base(truncated) >= 1
    ensures Growth(firing, resolved, k, truncated) <= Repeat(Base(truncated), k - 1) + 13 * resolved
  {
    GrowthBound(firing, resolved, k, truncated);
    RepeatAtLeast(Base(truncated), k - 1);
  }

  lemma NothingFits(render: Render, d: MessageData)
    ensures FitsMeasure(render, d, [])
  {
  }

  lemma GrowingAddsUp(render: Render, frameLength: string -> nat, line: PartLine, d: MessageData, xs: seq<Alert>, truncated: nat)
    requires Counted(render, frameLength, line) && d.truncated == truncated && Solid(xs) && Base(truncated) >= 1
    ensures FitsMeasure(render, d, xs)
  {
    if xs == [] {
      NothingFits(render, d);
    } else {
      CountsWithin(xs);
      GrowthFits(CountStatus(xs, "firing"), CountStatus(xs, "resolved"), |xs|, truncated);
      FitsMeasureIff(render, frameLength, line, d, xs, truncated);
    }
  }

  lemma {:induction false} CountCopies(a: Alert, m: nat, status: string)
    ensures CountStatus(Copies(a, m), status) == if a.status == status then m else 0
  {
    if m > 0 {
      CountCopies(a, m - 1, status);
      assert Copies(a, m)[1..] == Copies(a, m - 1);
    }
  }

  /** Ten firing alerts need one digit more than was measured. */
  lemma TenOutgrow(render: Render, frameLength: string -> nat, line: PartLine, d: MessageData, xs: seq<Alert>, truncated: nat)
    requires Counted(render, frameLength, line) && d.truncated == truncated && Base(truncated) == 0
    requires Solid(xs) && |xs| == 10 && CountStatus(xs, "firing") == 10 && CountStatus(xs, "resolved") == 0
    ensures !FitsMeasure(render, d, xs)
  {
    DigitsMonotone(1 + truncated, |xs| + truncated);
    RepeatAtLeast(0, |xs| - 1);
    FitsMeasureIff(render, frameLength, line, d, xs, truncated);
  }

  /**
   Measured sizes add up for all batches that leave out `truncated` alerts if and only if that number is
   0 or the next number has more digits: otherwise the counters of a big chunk hold digits nobody measured.
   */
  lemma SubadditiveIff(render: Render, frameLength: string -> nat, line: PartLine, truncated: nat)
    requires Counted(render, frameLength, line)
    ensures Subadditive(render, LeavingOut(truncated)) <==> truncated == 0 || Digits(truncated + 1) > Digits(truncated)
  {
    DigitsMonotone(truncated, truncated + 1);
    if Base(truncated) >= 1 {
      forall d, xs | LeavingOut(truncated)(d) && Solid(xs)
        ensures FitsMeasure(render, d, xs)
      {
        GrowingAddsUp(render, frameLength, line, d, xs, truncated);
      }
    } else {
      var a, d := Alert("firing", "x"), MessageData("", 0, 0, truncated, truncated, [], 1, 1);
      var m: nat := 10;
      CountCopies(a, m, "firing");
      CountCopies(a, m, "resolved");
      TenOutgrow(render, frameLength, line, d, Copies(a, m), truncated);
      assert LeavingOut(truncated)(d) && Solid(Copies(a, m));
    }
  }

  // ---------------------------------------------------------------------------------------------
  // Full batches
  // ---------------------------------------------------------------------------------------------

  /** The runes of a part with one firing alert, its body aside. */
  function OneFiring(frameLength: nat, truncated: nat): nat {
    frameLength + CountersLength(1, 0, 1 + truncated) + 2 + TailLength(truncated)
  }

  /** The header leaves room for a body longer than the reserve. */
  predicate Roomy(frameLength: nat, truncated: nat) {
    OneFiring(frameLength, truncated) + 2 * PART_COUNT_RESERVE < MAX_CHARS
  }

  /** One firing alert that fills the budget. */
  function FullAlert(frameLength: nat, truncated: nat): (a: Alert)
    requires Roomy(frameLength, truncated)
    ensures SolidBody(a) && a.status == "firing"
    ensures BodyLength(a) == MAX_CHARS - PART_COUNT_RESERVE - OneFiring(frameLength, truncated)
  {
    Alert("firing", seq(MAX_CHARS - PART_COUNT_RESERVE - OneFiring(frameLength, truncated), _ => 'x'))
  }

  /** n such alerts under one header. */
  function FullData(header: string, frameLength: nat, n: nat, truncated: nat): MessageData
    requires Roomy(frameLength, truncated)
  {
    MessageData(header, n, 0, n + truncated, truncated, Copies(FullAlert(frameLength, truncated), n), 1, 1)
  }

  lemma {:induction false} CopiesLength(a: Alert, m: nat)
    ensures Sum(BodyLength, Copies(a, m)) == Repeat(BodyLength(a), m)
  {
    if m > 0 {
      CopiesLength(a, m - 1);
      assert Copies(a, m)[1..] == Copies(a, m - 1);
    }
  }

  lemma FullFills(render: Render, frameLength: string -> nat, line: PartLine, header: string, n: nat, truncated: nat)
    requires Counted(render, frameLength, line) && Roomy(frameLength(header), truncated)
    ensures Fills(render, FullData(header, frameLength(header), n, truncated), FullAlert(frameLength(header), truncated))
  {
    var d, a := FullData(header, frameLength(header), n, truncated), FullAlert(frameLength(header), truncated);
    assert Solid([a]);
    CountOne(a, "firing");
    CountOne(a, "resolved");
    SumOne(BodyLength, a);
    OnlyPartLength(render, frameLength, line, d, [a], truncated);
    ShellLength(render, frameLength, line, d, truncated);
    DigitsMonotone(truncated, 1 + truncated);
  }

  lemma FullTooLong(render: Render, frameLength: string -> nat, line: PartLine, header: string, n: nat, truncated: nat)
    requires Counted(render, frameLength, line) && Roomy(frameLength(header), truncated) && n > 1
    ensures Length(render(FullData(header, frameLength(header), n, truncated))) > MAX_CHARS
  {
    var d, a := FullData(header, frameLength(header), n, truncated), FullAlert(frameLength(header), truncated);
    CopiesLength(a, n);
    assert Repeat(BodyLength(a), n) == BodyLength(a) + (BodyLength(a) + Repeat(BodyLength(a), n - 2)) by {
      assert Repeat(BodyLength(a), n - 1) == BodyLength(a) + Repeat(BodyLength(a), n - 2);
    }
    DigitsMonotone(1, n);
    DigitsMonotone(1 + truncated, n + truncated);
    assert Solid(d.alerts) && d.total - |d.alerts| == truncated && LineOf(line, d) == "";
  }

  /** n alerts that each fill the budget are a batch of n parts, whatever the part line. */
  lemma FullIsBatch(render: Render, frameLength: string -> nat, line: PartLine, header: string, n: nat, truncated: nat)
    requires Counted(render, frameLength, line) && Roomy(frameLength(header), truncated) && n > 1
    ensures FullBatch(render, LeavingOut(truncated), FullData(header, frameLength(header), n, truncated),
                      FullAlert(frameLength(header), truncated), n)
  {
    FullFills(render, frameLength, line, header, n, truncated);
    FullTooLong(render, frameLength, line, header, n, truncated);
  }

  // ---------------------------------------------------------------------------------------------
  // Ten alerts that fill the budget together
  // ---------------------------------------------------------------------------------------------

  /** m + 1 firing alerts that fill the budget together, when nothing but bodies is measured. */
  function Together(full: Alert, m: nat): seq<Alert>
    requires BodyLength(full) > m
  {
    Copies(Alert("firing", "x"), m) + [Alert("firing", full.body[m..])]
  }

  lemma {:induction false} RepeatOne(k: nat)
    ensures Repeat(1, k) == k
  {
    if k > 0 {
      RepeatOne(k - 1);
    }
  }

  lemma TogetherCounts(full: Alert, m: nat)
    requires BodyLength(full) > m && SolidBody(full)
    ensures Solid(Together(full, m)) && |Together(full, m)| == m + 1
    ensures CountStatus(Together(full, m), "firing") == m + 1 && CountStatus(Together(full, m), "resolved") == 0
    ensures Sum(BodyLength, Together(full, m)) == BodyLength(full)
  {
    var x, last := Alert("firing", "x"), Alert("firing", full.body[m..]);
    CountCopies(x, m, "firing");
    CountCopies(x, m, "resolved");
    CountOne(last, "firing");
    CountOne(last, "resolved");
    CountAppend(Copies(x, m), [last], "firing");
    CountAppend(Copies(x, m), [last], "resolved");
    CopiesLength(x, m);
    RepeatOne(m);
    SumOne(BodyLength, last);
    SumAppend(BodyLength, Copies(x, m), [last]);
    assert SolidBody(x) && SolidBody(last);
  }

  /** Two chunks: ten alerts that fill the budget together, and one that fills it alone. */
  function TenAndOne(header: string, full: Alert, truncated: nat, m: nat): MessageData
    requires BodyLength(full) > m
  {
    MessageData(header, m + 2, 0, m + 2 + truncated, truncated, Together(full, m) + [full], 1, 1)
  }

  lemma TenAndOneTooLong(render: Render, frameLength: string -> nat, line: PartLine, header: string, truncated: nat, m: nat)
    requires Counted(render, frameLength, line) && Roomy(frameLength(header), truncated) && m == 9
    ensures Length(render(TenAndOne(header, FullAlert(frameLength(header), truncated), truncated, m))) > MAX_CHARS
  {
    var full := FullAlert(frameLength(header), truncated);
    var d := TenAndOne(header, full, truncated, m);
    TogetherCounts(full, m);
    SumOne(BodyLength, full);
    SumAppend(BodyLength, Together(full, m), [full]);
    DigitsMonotone(1, m + 2);
    DigitsMonotone(1 + truncated, m + 2 + truncated);
    assert Solid(d.alerts) && d.total - |d.alerts| == truncated && LineOf(line, d) == "";
  }

  lemma TwoChunked(render: Render, d: MessageData, first: seq<Alert>, second: seq<Alert>)
    requires first != [] && second != [] && d.alerts == first + second && Budget(render, d) > 0
    requires var size := (a: Alert) => Measured(render, d, a);
             Sum(size, first) == Budget(render, d) && Sum(size, second) <= Budget(render, d) && size(second[0]) > 0
    ensures Chunked(render, d, [first, second])
  {
    assert Concat([first, second]) == first + Concat([second]) && Concat([second]) == second + Concat([]);
    GreedyChunked(render, d, [first, second]);
  }

  lemma FiringMeasures(render: Render, frameLength: string -> nat, line: PartLine, d: MessageData, xs: seq<Alert>, truncated: nat)
    requires Counted(render, frameLength, line) && d.truncated == truncated && Base(truncated) == 0
    requires Solid(xs) && CountStatus(xs, "resolved") == 0
    ensures Sum(a => Measured(render, d, a), xs) == Sum(BodyLength, xs)
  {
    RepeatAtLeast(0, |xs|);
    MeasuresSum(render, frameLength, line, d, xs, truncated);
  }

  lemma BudgetIsBody(render: Render, frameLength: string -> nat, line: PartLine, d: MessageData, truncated: nat)
    requires Counted(render, frameLength, line) && d.truncated == truncated && Base(truncated) == 0
    requires Roomy(frameLength(d.header), truncated)
    ensures Budget(render, d) == BodyLength(FullAlert(frameLength(d.header), truncated)) > PART_COUNT_RESERVE
  {
    ShellLength(render, frameLength, line, d, truncated);
    DigitsMonotone(truncated, truncated + 1);
  }

  lemma TenAndOneBatch(render: Render, frameLength: string -> nat, line: PartLine, header: string, truncated: nat, m: nat)
    requires Counted(render, frameLength, line) && Roomy(frameLength(header), truncated) && Base(truncated) == 0 && m == 9
    ensures var full := FullAlert(frameLength(header), truncated);
            Batch(render, LeavingOut(truncated), TenAndOne(header, full, truncated, m), [Together(full, m), [full]])
  {
    var full := FullAlert(frameLength(header), truncated);
    var d := TenAndOne(header, full, truncated, m);
    TogetherCounts(full, m);
    TenAndOneTooLong(render, frameLength, line, header, truncated, m);
    BudgetIsBody(render, frameLength, line, d, truncated);
    CountOne(full, "resolved");
    assert Solid([full]);
    FiringMeasures(render, frameLength, line, d, Together(full, m), truncated);
    FiringMeasures(render, frameLength, line, d, [full], truncated);
    SumOne(BodyLength, full);
    SumOne((a: Alert) => Measured(render, d, a), full);
    TwoChunked(render, d, Together(full, m), [full]);
  }

  /** Where measured sizes do not add up, a line of exactly the reserve is already too long. */
  lemma TenAndOneRejected(render: Render, frameLength: string -> nat, line: PartLine, header: string, truncated: nat, m: nat)
    requires Counted(render, frameLength, line) && Prefixed(render, line) && Roomy(frameLength(header), truncated)
    requires Base(truncated) == 0 && |line(1, 2)| >= PART_COUNT_RESERVE && m == 9
    ensures !NeverFires(render, LeavingOut(truncated), 2)
  {
    var full := FullAlert(frameLength(header), truncated);
    var d, ten := TenAndOne(header, full, truncated, m), Together(full, m);
    TenAndOneBatch(render, frameLength, line, header, truncated, m);
    TogetherCounts(full, m);
    TenOutgrow(render, frameLength, line, d, ten, truncated);
    BudgetIsBody(render, frameLength, line, d, truncated);
    FiringMeasures(render, frameLength, line, d, ten, truncated);
    assert Length(render(Clone(d, ten, 1, 2))) == |line(1, 2)| + Length(render(Clone(d, ten, 1, 1)));
    assert [ten, [full]][0] == ten && |[ten, [full]]| == 2;
    assert !FinalCheckPasses(render, d, [ten, [full]]);
  }

  // ---------------------------------------------------------------------------------------------
  // The results
  // ---------------------------------------------------------------------------------------------

  lemma CountedPrefixed(frame: Frame, line: PartLine)
    requires Framed(frame) && forall i, n :: StartsSolid(line(i, n))
    ensures Prefixed(Rendering(ShippedHead(frame), ShippedTail, line), line)
  {
    ShippedTidy(frame, line);
    RenderingSized(ShippedHead(frame), ShippedTail, line);
    SizedPrefixed(Rendering(ShippedHead(frame), ShippedTail, line), ShippedHead(frame), ShippedTail, line);
  }

  /**
   The shipped template with any part line, on batches whose measured sizes add up: the final size check
   never fires on up to max chunks if and only if the part lines of up to max parts fit the reserve.
   */
  lemma ShippedReserveIff(frame: Frame, line: PartLine, header: string, truncated: nat, max: nat)
    requires Framed(frame) && forall i, n :: StartsSolid(line(i, n))
    requires Roomy(FrameLength(frame)(header), truncated)
    requires truncated == 0 || Digits(truncated + 1) > Digits(truncated)
    ensures NeverFires(Rendering(ShippedHead(frame), ShippedTail, line), LeavingOut(truncated), max) <==> LinesFit(line, max)
  {
    var render := Rendering(ShippedHead(frame), ShippedTail, line);
    CountedPrefixed(frame, line);
    ShippedCounted(frame, line);
    SubadditiveIff(render, FrameLength(frame), line, truncated);
    forall n | 1 < n <= max
      ensures HasFullBatch(render, LeavingOut(truncated), n)
    {
      FullIsBatch(render, FrameLength(frame), line, header, n, truncated);
    }
    ReserveIff(render, LeavingOut(truncated), line, max);
  }

  /**
   For all other numbers of left-out alerts it takes less: a part line of 16 runes, which fits the reserve,
   gets a batch of two parts rejected.
   */
  lemma ShippedReserveTooSmall(frame: Frame, line: PartLine, header: string, truncated: nat)
    requires Framed(frame) && forall i, n :: StartsSolid(line(i, n))
    requires Roomy(FrameLength(frame)(header), truncated)
    requires !(truncated == 0 || Digits(truncated + 1) > Digits(truncated)) && |line(1, 2)| == PART_COUNT_RESERVE
    ensures !NeverFires(Rendering(ShippedHead(frame), ShippedTail, line), LeavingOut(truncated), 2)
  {
    CountedPrefixed(frame, line);
    ShippedCounted(frame, line);
    DigitsMonotone(truncated, truncated + 1);
    TenAndOneRejected(Rendering(ShippedHead(frame), ShippedTail, line), FrameLength(frame), line, header, truncated, 9);
  }

  /** The final size check rejects some batch of n parts under this header. */
  ghost predicate Rejects(render: Render, header: string, truncated: nat, n: nat) {
    exists data: MessageData, chunks: seq<seq<Alert>> :: data.header == header && |chunks| == n
                           && Batch(render, LeavingOut(truncated), data, chunks) && !FinalCheckPasses(render, data, chunks)
  }

  /** Every shipped part line has at least 22 runes: for every part count some batch is rejected, however many alerts it leaves out. */
  lemma ShippedLineTooLong(frame: Frame, header: string, truncated: nat, n: nat)
    requires Framed(frame) && Roomy(FrameLength(frame)(header), truncated) && n > 1
    ensures Rejects(Shipped(frame), header, truncated, n)
  {
    var data, a := FullData(header, FrameLength(frame)(header), n, truncated), FullAlert(FrameLength(frame)(header), truncated);
    CountedPrefixed(frame, ShippedLine);
    ShippedCounted(frame, ShippedLine);
    FullIsBatch(Shipped(frame), FrameLength(frame), ShippedLine, header, n, truncated);
    LongLineRejects(Shipped(frame), LeavingOut(truncated), ShippedLine, data, a, 1, n);
  }

  /** The i-th of n full parts exceeds the limit by four runes and the digits of its numbers: six for part 1 of 2. */
  lemma ShippedFullPart(frame: Frame, header: string, truncated: nat, i: nat, n: nat)
    requires Framed(frame) && Roomy(FrameLength(frame)(header), truncated) && n > 1
    ensures Length(Shipped(frame)(Clone(FullData(header, FrameLength(frame)(header), n, truncated),
                                        [FullAlert(FrameLength(frame)(header), truncated)], i, n)))
         == MAX_CHARS + 4 + Digits(i) + Digits(n)
  {
    CountedPrefixed(frame, ShippedLine);
    ShippedCounted(frame, ShippedLine);
    FullFills(Shipped(frame), FrameLength(frame), ShippedLine, header, n, truncated);
    FullPartLength(Shipped(frame), ShippedLine, FullData(header, FrameLength(frame)(header), n, truncated),
                   FullAlert(FrameLength(frame)(header), truncated), i, n);
  }

  lemma ShippedFirstOfTwo()
    ensures ShippedLine(1, 2) == "<b>\U{1F4E6} Part 1 of 2</b>\n\n"
    ensures |ShippedLine(1, 2)| == 22
  {
    assert Decimal(1) == "1" && Decimal(2) == "2";
  }
}
