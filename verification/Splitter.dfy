/** Splitting a plain message into Telegram-sized parts (internal/service/delivery_service.go:487-543). A char is a rune. */
module Splitter {
  /** unicode.IsSpace, which strings.TrimSpace trims. */
  predicate IsSpace(c: char) {
    || '\t' <= c <= '\r' || c == ' ' || c == '\U{0085}' || c == '\U{00A0}' || c == '\U{1680}'
    || '\U{2000}' <= c <= '\U{200A}' || c == '\U{2028}' || c == '\U{2029}' || c == '\U{202F}'
    || c == '\U{205F}' || c == '\U{3000}'
  }

  /** The whitespace a cut may fall on. */
  predicate IsBreak(c: char) {
    c == '\n' || c == ' ' || c == '\t'
  }

  /** White space by code point, the same list. */
  lemma SpaceCodes(c: char)
    ensures IsSpace(c) <==>
            || 9 <= c as int <= 13 || c as int in {32, 133, 160, 5760, 8232, 8233, 8239, 8287, 12288} || 8192 <= c as int <= 8202
  {
  }

  predicate AllSpace(s: string) {
    forall i :: 0 <= i < |s| ==> IsSpace(s[i])
  }

  predicate Trimmed(s: string) {
    s == "" || (!IsSpace(s[0]) && !IsSpace(s[|s| - 1]))
  }

  /** The first index from i on that holds no space. */
  function TextStart(s: string, i: nat): (r: nat)
    requires i <= |s|
    ensures i <= r <= |s|
    ensures r < |s| ==> !IsSpace(s[r])
    ensures forall k :: i <= k < r ==> IsSpace(s[k])
    decreases |s| - i
  {
    if i < |s| && IsSpace(s[i]) then TextStart(s, i + 1) else i
  }

  /** The end of the text that trailing spaces follow, not going below lo. */
  function TextEnd(s: string, lo: nat, j: nat): (r: nat)
    requires lo <= j <= |s|
    ensures lo <= r <= j
    ensures r > lo ==> !IsSpace(s[r - 1])
    ensures forall k :: r <= k < j ==> IsSpace(s[k])
    decreases j
  {
    if lo < j && IsSpace(s[j - 1]) then TextEnd(s, lo, j - 1) else j
  }

  /** strings.TrimSpace */
  function Trim(s: string): (r: string)
    ensures Trimmed(r) && |r| <= |s|
  {
    var lo := TextStart(s, 0);
    s[lo..TextEnd(s, lo, |s|)]
  }

  /** t is s without the spaces at both ends. */
  ghost predicate IsTrimOf(s: string, t: string) {
    Trimmed(t) && exists i, j :: 0 <= i <= j <= |s| && t == s[i..j] && AllSpace(s[..i]) && AllSpace(s[j..])
  }

  lemma TrimIsTrim(s: string)
    ensures IsTrimOf(s, Trim(s))
    ensures Trim(s) == "" <==> AllSpace(s)
  {
    var lo := TextStart(s, 0);
    var hi := TextEnd(s, lo, |s|);
    assert Trim(s) == s[lo..hi] && AllSpace(s[..lo]) && AllSpace(s[hi..]);
    if lo == hi {
      assert s == s[..lo] + s[hi..];
    } else {
      assert !IsSpace(s[hi - 1]);
    }
  }

  /** The largest index in 1..k-1 that holds a break, or 0. */
  function LastBreak(s: string, k: nat): (r: nat)
    requires k <= |s|
    ensures r < k || r == 0
    ensures r > 0 ==> IsBreak(s[r])
    ensures forall i :: r < i < k ==> !IsBreak(s[i])
  {
    if k <= 1 then 0 else if IsBreak(s[k - 1]) then k - 1 else LastBreak(s, k - 1)
  }

  function Cut(s: string, limit: nat): nat {
    if |s| <= limit then |s| else if LastBreak(s, limit) > 0 then LastBreak(s, limit) else limit
  }

  /** Scans at most limit + 1 runes for the last break among the first limit ones. */
  method LastFittingCut(message: string, limit: nat) returns (cut: nat)
    ensures cut == Cut(message, limit)
    ensures |message| <= limit ==> cut == |message|
    ensures |message| > limit ==>
              if exists i :: 0 < i < limit && message[i] in "\n \t"
              then 0 < cut < limit && message[cut] in "\n \t" && forall i :: cut < i < limit ==> message[i] !in "\n \t"
              else cut == limit
  {
    var lastWhitespace, charCount := 0, 0;
    while charCount < |message|
      invariant 0 <= charCount <= |message| && charCount <= limit
      invariant lastWhitespace == LastBreak(message, charCount)
    {
      if charCount == limit {
        if lastWhitespace > 0 {
          return lastWhitespace;
        }
        return charCount;
      }
      if IsBreak(message[charCount]) {
        lastWhitespace := charCount;
      }
      charCount := charCount + 1;
    }
    return |message|;
  }

  /** The parts of a trimmed message. */
  function Parts(s: string, limit: nat): seq<string>
    requires limit >= 1
    decreases |s|
  {
    if s == "" then []
    else if |s| <= limit then [s]
    else
      var cut := Cut(s, limit);
      [Trim(s[..cut])] + Parts(Trim(s[cut..]), limit)
  }

  lemma PartsUnfold(done: seq<string>, s: string, limit: nat)
    requires limit >= 1 && |s| > limit
    ensures var cut := Cut(s, limit);
            done + Parts(s, limit) == done + [Trim(s[..cut])] + Parts(Trim(s[cut..]), limit)
  {
  }

  /** At limit 0 the original never advances; its callers pass 4096. */
  method SplitMessage(message: string, limit: nat) returns (parts: seq<string>)
    requires limit >= 1
    ensures parts == if |message| <= limit then [message] else Parts(Trim(message), limit)
  {
    if |message| <= limit {
      return [message];
    }
    parts := [];
    var remaining := Trim(message);
    ghost var all := Parts(remaining, limit);
    while remaining != ""
      invariant parts + Parts(remaining, limit) == all
      decreases |remaining|
    {
      if |remaining| <= limit {
        parts := parts + [remaining];
        return;
      }
      PartsUnfold(parts, remaining, limit);
      var cut := LastFittingCut(remaining, limit);
      var part := Trim(remaining[..cut]);
      parts := parts + [part];
      remaining := Trim(remaining[cut..]);
    }
  }

  // ---------------------------------------------------------------------------------------------
  // What the parts are
  // ---------------------------------------------------------------------------------------------

  lemma HeadShape(s: string, cut: nat) returns (p: nat)
    requires 1 <= cut <= |s| && !IsSpace(s[0])
    ensures 1 <= p <= cut && Trim(s[..cut]) == s[..p]
    ensures forall i :: p <= i < cut ==> IsSpace(s[i])
  {
    var head := s[..cut];
    assert TextStart(head, 0) == 0;
    p := TextEnd(head, 0, cut);
    assert forall i :: p <= i < cut ==> head[i] == s[i];
    assert head[0..p] == s[..p];
  }

  lemma TailShape(s: string, cut: nat) returns (q: nat)
    requires cut < |s| && !IsSpace(s[|s| - 1])
    ensures cut <= q < |s| && Trim(s[cut..]) == s[q..] && !IsSpace(s[q])
    ensures forall i :: cut <= i < q ==> IsSpace(s[i])
  {
    var tail := s[cut..];
    var lo := TextStart(tail, 0);
    q := cut + lo;
    assert tail[|tail| - 1] == s[|s| - 1];
    assert forall i :: cut <= i < q ==> tail[i - cut] == s[i];
    assert TextEnd(tail, lo, |tail|) == |tail|;
    assert tail[lo..|tail|] == s[q..];
  }

  /** One cut: a part, whitespace, and a trimmed non-empty rest. Empty whitespace means the first `limit` runes are one word. */
  lemma CutShape(s: string, limit: nat) returns (p: nat, q: nat)
    requires limit >= 1 && |s| > limit && Trimmed(s)
    ensures 1 <= p <= Cut(s, limit) <= q < |s| && Cut(s, limit) <= limit
    ensures Trim(s[..Cut(s, limit)]) == s[..p] && Trim(s[Cut(s, limit)..]) == s[q..]
    ensures forall i :: p <= i < q ==> IsSpace(s[i])
    ensures q == Cut(s, limit) ==> q == limit && forall i :: 0 <= i < limit ==> !IsBreak(s[i])
  {
    var cut := Cut(s, limit);
    p := HeadShape(s, cut);
    q := TailShape(s, cut);
    assert IsBreak(s[cut]) ==> IsSpace(s[cut]);
    assert !IsBreak(s[0]);
  }

  predicate FitsIn(part: string, limit: nat) {
    part != "" && Trimmed(part) && |part| <= limit
  }

  predicate NoBreak(s: string) {
    '\n' !in s && ' ' !in s && '\t' !in s
  }

  /** The same, for the list of parts: the first one ends at p, the others are those of the rest from q on. */
  lemma PartsCut(s: string, limit: nat) returns (p: nat, q: nat)
    requires limit >= 1 && |s| > limit && Trimmed(s)
    ensures 1 <= p <= q < |s| && p <= limit
    ensures Parts(s, limit) == [s[..p]] + Parts(s[q..], limit)
    ensures FitsIn(s[..p], limit) && Trimmed(s[q..]) && AllSpace(s[p..q])
    ensures p == q ==> p == limit && NoBreak(s[..p])
    ensures s[q..] == Trim(s[Cut(s, limit)..])
  {
    p, q := CutShape(s, limit);
    assert Parts(s, limit) == [Trim(s[..Cut(s, limit)])] + Parts(Trim(s[Cut(s, limit)..]), limit);
  }

  function Interleave(parts: seq<string>, gaps: seq<string>): string
    requires |parts| == |gaps| + 1
  {
    if gaps == [] then parts[0] else parts[0] + gaps[0] + Interleave(parts[1..], gaps[1..])
  }

  predicate Woven(s: string, parts: seq<string>, gaps: seq<string>, limit: nat) {
    && |parts| == |gaps| + 1
    && Interleave(parts, gaps) == s
    && (forall i :: 0 <= i < |gaps| ==> AllSpace(gaps[i]))
    && (forall i :: 0 <= i < |gaps| && gaps[i] == "" ==> |parts[i]| == limit && NoBreak(parts[i]))
    && (forall i :: 0 <= i < |parts| ==> FitsIn(parts[i], limit))
  }

  lemma WeaveOn(s: string, p: nat, q: nat, parts: seq<string>, gaps: seq<string>, limit: nat)
    requires p <= q <= |s| && Woven(s[q..], parts, gaps, limit)
    requires FitsIn(s[..p], limit) && AllSpace(s[p..q])
    requires p == q ==> p == limit && NoBreak(s[..p])
    ensures Woven(s, [s[..p]] + parts, [s[p..q]] + gaps, limit)
  {
  }

  /**
   Nothing but whitespace is lost: the message is its parts with whitespace between them; each part is
   trimmed, non-empty and fits; two parts touch only where `limit` runes hold no space, tab or newline.
   */
  lemma {:induction false} PartsWeave(s: string, limit: nat) returns (gaps: seq<string>)
    requires limit >= 1 && s != "" && Trimmed(s)
    ensures Woven(s, Parts(s, limit), gaps, limit)
    decreases |s|
  {
    if |s| <= limit {
      gaps := [];
    } else {
      var p, q := PartsCut(s, limit);
      var rest := PartsWeave(s[q..], limit);
      gaps := [s[p..q]] + rest;
      WeaveOn(s, p, q, Parts(s[q..], limit), rest, limit);
    }
  }

  /** Two consecutive cuts consume at least `limit` runes. */
  lemma TwoCutsAdvance(s: string, limit: nat)
    requires limit >= 1 && |s| > limit && Trimmed(s)
    ensures var s1 := Trim(s[Cut(s, limit)..]);
            |s1| > limit ==> |Trim(s1[Cut(s1, limit)..])| + limit <= |s|
  {
    var p, q := CutShape(s, limit);
    var s1 := s[q..];
    if |s1| > limit {
      var p1, q1 := CutShape(s1, limit);
      var c1 := Cut(s1, limit);
      assert c1 < limit ==> IsBreak(s[q + c1]);
    }
  }

  /** How many whole limits fit before the last rune: (n - 1) / limit. */
  function Rounds(n: nat, limit: nat): (r: nat)
    requires limit >= 1
  {
    if n <= limit then 0 else 1 + Rounds(n - limit, limit)
  }

  lemma {:induction false} RoundsMonotone(m: nat, n: nat, limit: nat)
    requires limit >= 1 && m <= n
    ensures Rounds(m, limit) <= Rounds(n, limit)
    decreases n
  {
    if m > limit {
      RoundsMonotone(m - limit, n - limit, limit);
    }
  }

  lemma MulMonotone(a: nat, b: nat, d: nat)
    requires a <= b
    ensures a * d <= b * d
  {
  }

  lemma QuotientUnique(x: nat, d: nat, q: nat)
    requires d >= 1 && q * d <= x < q * d + d
    ensures x / d == q
  {
    var y := x / d;
    assert y * d <= x < y * d + d;
    if y < q {
      MulMonotone(y + 1, q, d);
    } else if q < y {
      MulMonotone(q + 1, y, d);
    }
  }

  lemma {:induction false} RoundsBracket(n: nat, limit: nat)
    requires limit >= 1 && n >= 1
    ensures Rounds(n, limit) * limit <= n - 1 < Rounds(n, limit) * limit + limit
    decreases n
  {
    if n > limit {
      RoundsBracket(n - limit, limit);
      var k := Rounds(n - limit, limit);
      assert (k + 1) * limit == k * limit + limit;
    }
  }

  lemma RoundsIsQuotient(n: nat, limit: nat)
    requires limit >= 1 && n >= 1
    ensures Rounds(n, limit) == (n - 1) / limit
  {
    RoundsBracket(n, limit);
    QuotientUnique(n - 1, limit, Rounds(n, limit));
  }

  lemma TwoParts(s: string, limit: nat) returns (rest: string)
    requires limit >= 1 && |s| > limit && Trimmed(s)
    ensures if rest == "" then |Parts(s, limit)| == 2
            else Trimmed(rest) && |rest| + limit <= |s| && |Parts(s, limit)| == 2 + |Parts(rest, limit)|
  {
    var p, q := PartsCut(s, limit);
    var s1 := s[q..];
    if |s1| <= limit {
      rest := "";
    } else {
      TwoCutsAdvance(s, limit);
      var p1, q1 := PartsCut(s1, limit);
      rest := s1[q1..];
    }
  }

  lemma RoundsOfTwo(parts: nat, rest: nat, n: nat, left: nat, limit: nat)
    requires limit >= 1 && n > limit && parts == 2 + rest
    requires (rest == 0 && left == 0) || (left + limit <= n && rest <= 2 * Rounds(left, limit) + 1)
    ensures parts <= 2 * Rounds(n, limit) + 1
  {
    RoundsMonotone(left, n - limit, limit);
  }

  lemma OnePart(s: string, limit: nat)
    requires limit >= 1 && s != "" && |s| <= limit
    ensures |Parts(s, limit)| == 1
  {
  }

  lemma {:induction false} PartsRounds(s: string, limit: nat)
    requires limit >= 1 && s != "" && Trimmed(s)
    ensures |Parts(s, limit)| <= 2 * Rounds(|s|, limit) + 1
    decreases |s|
  {
    if |s| <= limit {
      OnePart(s, limit);
    } else {
      var rest := TwoParts(s, limit);
      if rest == "" {
        RoundsOfTwo(|Parts(s, limit)|, 0, |s|, 0, limit);
      } else {
        PartsRounds(rest, limit);
        RoundsOfTwo(|Parts(s, limit)|, |Parts(rest, limit)|, |s|, |rest|, limit);
      }
    }
  }

  lemma BoundByRounds(parts: nat, n: nat, limit: nat)
    requires limit >= 1 && n >= 1 && parts <= 2 * Rounds(n, limit) + 1
    ensures parts <= 2 * ((n - 1) / limit) + 1
  {
    RoundsIsQuotient(n, limit);
  }

  /** A message of n runes yields at most 2 * floor((n-1)/limit) + 1 parts. */
  lemma PartsBound(s: string, limit: nat)
    requires limit >= 1 && s != "" && Trimmed(s)
    ensures |Parts(s, limit)| <= 2 * ((|s| - 1) / limit) + 1
  {
    PartsRounds(s, limit);
    BoundByRounds(|Parts(s, limit)|, |s|, limit);
  }

  datatype Passthrough = Messages(parts: seq<string>) | EmptyMessage

  lemma TrimIdempotent(s: string)
    requires Trimmed(s)
    ensures Trim(s) == s
  {
  }

  /** The parts hold the whole text, each fits, and there are few of them. */
  ghost predicate WellSplit(text: string, parts: seq<string>, limit: nat)
    requires limit >= 1
  {
    |parts| <= 2 * ((|text| - 1) / limit) + 1 && exists gaps :: Woven(text, parts, gaps, limit)
  }

  /** The parts of a trimmed text, as SplitMessage makes them, short text or long. */
  lemma SplitFacts(text: string, parts: seq<string>, limit: nat)
    requires limit >= 1 && text != "" && Trimmed(text)
    requires parts == if |text| <= limit then [text] else Parts(Trim(text), limit)
    ensures WellSplit(text, parts, limit)
  {
    assert parts == Parts(text, limit) by {
      TrimIdempotent(text);
    }
    PartsBound(text, limit);
    var gaps := PartsWeave(text, limit);
  }

  /** The parts are those of s without the spaces at its ends. */
  ghost predicate WellSplitTrim(s: string, parts: seq<string>, limit: nat)
    requires limit >= 1
  {
    exists text :: IsTrimOf(s, text) && WellSplit(text, parts, limit)
  }

  /** The alertmanager mode: the message, or the title when the message is blank. The limit is Telegram's 4096 runes. */
  method BuildPassthroughMessages(message: string, title: string, limit: nat) returns (r: Passthrough)
    requires limit >= 1
    ensures r.EmptyMessage? <==> AllSpace(message) && AllSpace(title)
    ensures !AllSpace(message) ==> r.Messages? && WellSplitTrim(message, r.parts, limit)
    ensures AllSpace(message) && !AllSpace(title) ==> r.Messages? && WellSplitTrim(title, r.parts, limit)
  {
    TrimIsTrim(message);
    TrimIsTrim(title);
    var text := Trim(message);
    if text == "" {
      text := Trim(title);
    }
    if text == "" {
      return EmptyMessage;
    }
    var parts := SplitMessage(text, limit);
    SplitFacts(text, parts, limit);
    return Messages(parts);
  }
}
