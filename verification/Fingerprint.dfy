/** The canonical string of a webhook payload that the idempotency key hashes (internal/service/alert_service.go:164-220). */
module Fingerprint {
  import opened StringOrder

  // ---------------------------------------------------------------------------------------------
  // Joining and splitting
  // ---------------------------------------------------------------------------------------------

  /** strings.Join */
  function Join(xs: seq<string>, sep: string): string {
    if xs == [] then "" else if |xs| == 1 then xs[0] else xs[0] + sep + Join(xs[1..], sep)
  }

  function Split(s: string, c: char): (r: seq<string>)
    ensures r != []
  {
    if s == "" then [""]
    else
      var rest := Split(s[1..], c);
      if s[0] == c then [""] + rest else [[s[0]] + rest[0]] + rest[1..]
  }

  predicate Free(c: char, xs: seq<string>) {
    forall i :: 0 <= i < |xs| ==> c !in xs[i]
  }

  lemma {:induction false} SplitWord(s: string, c: char)
    requires c !in s
    ensures Split(s, c) == [s]
  {
    if s != "" {
      SplitWord(s[1..], c);
      assert [s[0]] + s[1..] == s;
    }
  }

  lemma {:induction false} SplitFirst(s: string, c: char, rest: string)
    requires c !in s
    ensures Split(s + [c] + rest, c) == [s] + Split(rest, c)
  {
    if s == "" {
      assert (s + [c] + rest)[1..] == rest;
    } else {
      assert (s + [c] + rest)[1..] == s[1..] + [c] + rest;
      SplitFirst(s[1..], c, rest);
      assert [s[0]] + s[1..] == s;
    }
  }

  /** Fields without the separator can be read back from their join. */
  lemma {:induction false} SplitJoin(xs: seq<string>, c: char)
    requires xs != [] && Free(c, xs)
    ensures Split(Join(xs, [c]), c) == xs
  {
    if |xs| == 1 {
      SplitWord(xs[0], c);
    } else {
      SplitFirst(xs[0], c, Join(xs[1..], [c]));
      SplitJoin(xs[1..], c);
    }
  }

  lemma {:induction false} JoinAppend(xs: seq<string>, ys: seq<string>, sep: string)
    requires xs != [] && ys != []
    ensures Join(xs + ys, sep) == Join(xs, sep) + sep + Join(ys, sep)
  {
    if |xs| == 1 {
      assert (xs + ys)[1..] == ys;
    } else {
      assert (xs + ys)[1..] == xs[1..] + ys;
      JoinAppend(xs[1..], ys, sep);
      assert xs[0] + sep + (Join(xs[1..], sep) + sep + Join(ys, sep)) == Join(xs, sep) + sep + Join(ys, sep);
    }
  }

  lemma {:induction false} JoinFree(xs: seq<string>, sep: string, c: char)
    requires Free(c, xs) && c !in sep
    ensures c !in Join(xs, sep)
  {
    if |xs| > 1 {
      JoinFree(xs[1..], sep, c);
    }
  }

  // ---------------------------------------------------------------------------------------------
  // Maps
  // ---------------------------------------------------------------------------------------------

  lemma {:induction false} SomeOrder(ks: set<string>) returns (r: seq<string>)
    ensures multiset(r) == multiset(ks)
  {
    if ks == {} {
      r := [];
    } else {
      var k :| k in ks;
      var rest := SomeOrder(ks - {k});
      r := [k] + rest;
      assert ks == ks - {k} + {k};
    }
  }

  lemma SortedKeysExist(ks: set<string>)
    ensures exists r :: Sorted(r) && multiset(r) == multiset(ks)
  {
    var some := SomeOrder(ks);
    var r := SomeSorted(some);
  }

  /** The keys in the order of sort.Strings. */
  ghost function SortedKeys(ks: set<string>): (r: seq<string>)
    ensures Sorted(r) && multiset(r) == multiset(ks)
  {
    SortedKeysExist(ks);
    var r :| Sorted(r) && multiset(r) == multiset(ks);
    r
  }

  function Pair(m: map<string, string>, key: string): string {
    if key in m then key + "=" + m[key] else ""
  }

  function Pairs(m: map<string, string>, keys: seq<string>): (r: seq<string>)
    ensures |r| == |keys| && forall i :: 0 <= i < |keys| ==> r[i] == Pair(m, keys[i])
  {
    seq(|keys|, i requires 0 <= i < |keys| => Pair(m, keys[i]))
  }

  ghost function MapString(m: map<string, string>): string {
    Join(Pairs(m, SortedKeys(m.Keys)), ",")
  }

  /** `for key := range values`: the order of the keys is arbitrary. */
  method CollectKeys(values: map<string, string>) returns (keys: seq<string>)
    ensures multiset(keys) == multiset(values.Keys)
  {
    keys := [];
    var rest := values.Keys;
    while rest != {}
      invariant multiset(keys) + multiset(rest) == multiset(values.Keys)
      decreases rest
    {
      var key :| key in rest;
      assert multiset(rest) == multiset(rest - {key}) + multiset{key};
      keys := keys + [key];
      rest := rest - {key};
    }
  }

  method WritePairs(values: map<string, string>, keys: seq<string>) returns (pairs: seq<string>)
    requires forall i :: 0 <= i < |keys| ==> keys[i] in values
    ensures pairs == Pairs(values, keys)
  {
    pairs := [];
    for k := 0 to |keys|
      invariant |pairs| == k && forall i :: 0 <= i < k ==> pairs[i] == Pair(values, keys[i])
    {
      pairs := pairs + [keys[k] + "=" + values[keys[k]]];
    }
  }

  lemma KeysOf(ks: set<string>, keys: seq<string>)
    requires multiset(keys) == multiset(ks)
    ensures forall i :: 0 <= i < |keys| ==> keys[i] in ks
    ensures |keys| == |ks|
  {
    forall i | 0 <= i < |keys|
      ensures keys[i] in ks
    {
      assert keys[i] in multiset(keys);
    }
    assert |multiset(keys)| == |keys|;
  }

  /** Whatever order the map is iterated in, the string is the same. */
  method StableMapString(values: map<string, string>) returns (s: string)
    ensures s == MapString(values)
  {
    KeysOf(values.Keys, SortedKeys(values.Keys));
    if |values| == 0 {
      return "";
    }
    var keys := CollectKeys(values);
    keys := SortStrings(keys);
    SortedUnique(keys, SortedKeys(values.Keys));
    var pairs := WritePairs(values, keys);
    s := Join(pairs, ",");
  }

  /** No equals sign in keys, no comma in values. */
  predicate CleanMap(m: map<string, string>) {
    forall k :: k in m ==> '=' !in k && ',' !in m[k]
  }

  lemma PairUnique(k: string, v: string, k': string, v': string)
    requires '=' !in k && '=' !in k' && k + "=" + v == k' + "=" + v'
    ensures k == k' && v == v'
  {
    SplitFirst(k, '=', v);
    SplitFirst(k', '=', v');
    assert ([k] + Split(v, '='))[0] == ([k'] + Split(v', '='))[0];
    assert (k + "=" + v)[|k| + 1..] == v && (k' + "=" + v')[|k'| + 1..] == v';
  }

  lemma PairsFree(m: map<string, string>, ks: seq<string>, c: char)
    requires c != '=' && forall k :: k in m ==> c !in k && c !in m[k]
    ensures Free(c, Pairs(m, ks))
  {
  }

  lemma MapOfSorted(m: map<string, string>)
    ensures forall i :: 0 <= i < |SortedKeys(m.Keys)| ==> SortedKeys(m.Keys)[i] in m
    ensures forall k :: k in m ==> k in SortedKeys(m.Keys)
  {
    KeysOf(m.Keys, SortedKeys(m.Keys));
    forall k | k in m
      ensures k in SortedKeys(m.Keys)
    {
      assert k in multiset(SortedKeys(m.Keys));
    }
  }

  /** The pairs from the i-th on, each after the first with its comma. */
  function Tail(m: map<string, string>, ks: seq<string>): string {
    if ks == [] then "" else "," + Join(Pairs(m, ks), ",")
  }

  lemma PairsHead(m: map<string, string>, ks: seq<string>)
    requires ks != [] && ks[0] in m
    ensures Join(Pairs(m, ks), ",") == ks[0] + "=" + (m[ks[0]] + Tail(m, ks[1..]))
  {
    assert Pairs(m, ks)[1..] == Pairs(m, ks[1..]);
  }

  /** Where a value ends: at the first comma, or at the end of the string. */
  function ValueEnd(s: string): (k: nat)
    ensures k <= |s|
  {
    if s == "" || s[0] == ',' then 0 else 1 + ValueEnd(s[1..])
  }

  lemma {:induction false} ValueEndsThere(v: string, rest: string)
    requires ',' !in v && (rest == "" || rest[0] == ',')
    ensures ValueEnd(v + rest) == |v|
  {
    if v == "" {
      assert v + rest == rest;
    } else {
      assert v[0] in v && (v + rest)[1..] == v[1..] + rest;
      ValueEndsThere(v[1..], rest);
    }
  }

  lemma ValueUnique(v: string, rest: string, v': string, rest': string)
    requires ',' !in v && ',' !in v' && v + rest == v' + rest'
    requires (rest == "" || rest[0] == ',') && (rest' == "" || rest'[0] == ',')
    ensures v == v' && rest == rest'
  {
    ValueEndsThere(v, rest);
    ValueEndsThere(v', rest');
    var s := v + rest;
    assert s[..|v|] == v && s[..|v'|] == v' && s[|v|..] == rest && s[|v'|..] == rest';
  }

  lemma TailsRead(m: map<string, string>, n: map<string, string>, ks: seq<string>, ls: seq<string>)
    requires Tail(m, ks) == Tail(n, ls)
    ensures Join(Pairs(m, ks), ",") == Join(Pairs(n, ls), ",")
  {
    assert ks != [] ==> Tail(m, ks)[1..] == Join(Pairs(m, ks), ",");
    assert ls != [] ==> Tail(n, ls)[1..] == Join(Pairs(n, ls), ",");
  }

  /** Reading pair after pair: a key ends at the first equals sign, a value at the next comma. */
  lemma {:induction false} PairsRead(m: map<string, string>, n: map<string, string>, ks: seq<string>, ls: seq<string>)
    requires CleanMap(m) && CleanMap(n) && Join(Pairs(m, ks), ",") == Join(Pairs(n, ls), ",")
    requires (forall i :: 0 <= i < |ks| ==> ks[i] in m) && (forall i :: 0 <= i < |ls| ==> ls[i] in n)
    ensures ks == ls && forall i :: 0 <= i < |ks| ==> m[ks[i]] == n[ls[i]]
    decreases |ks|
  {
    if ks != [] {
      PairsHead(m, ks);
    }
    if ls != [] {
      PairsHead(n, ls);
    }
    if ks != [] && ls != [] {
      PairUnique(ks[0], m[ks[0]] + Tail(m, ks[1..]), ls[0], n[ls[0]] + Tail(n, ls[1..]));
      ValueUnique(m[ks[0]], Tail(m, ks[1..]), n[ls[0]], Tail(n, ls[1..]));
      TailsRead(m, n, ks[1..], ls[1..]);
      PairsRead(m, n, ks[1..], ls[1..]);
      assert ks == [ks[0]] + ks[1..] && ls == [ls[0]] + ls[1..];
    }
  }

  lemma SameMap(m: map<string, string>, n: map<string, string>, ks: seq<string>)
    requires forall i :: 0 <= i < |ks| ==> ks[i] in m && ks[i] in n && m[ks[i]] == n[ks[i]]
    requires (forall k :: k in m ==> k in ks) && (forall k :: k in n ==> k in ks)
    ensures m == n
  {
  }

  /** Clean maps can be told apart by their strings. */
  lemma MapStringInjective(m: map<string, string>, n: map<string, string>)
    requires CleanMap(m) && CleanMap(n) && MapString(m) == MapString(n)
    ensures m == n
  {
    MapOfSorted(m);
    MapOfSorted(n);
    PairsRead(m, n, SortedKeys(m.Keys), SortedKeys(n.Keys));
    SameMap(m, n, SortedKeys(m.Keys));
  }

  // ---------------------------------------------------------------------------------------------
  // Alerts and payloads
  // ---------------------------------------------------------------------------------------------

  /** The fields of an alert that reach the fingerprint; times are instants. */
  datatype Alert = Alert(
    status: string,
    fingerprint: string,
    startsAt: int,
    endsAt: int,
    generatorURL: string,
    labels: map<string, string>,
    annotations: map<string, string>,
    valueString: string)

  datatype Payload = Payload(
    receiver: string,
    status: string,
    groupKey: string,
    externalURL: string,
    title: string,
    message: string,
    groupLabels: map<string, string>,
    commonLabels: map<string, string>,
    commonAnnotations: map<string, string>,
    alerts: seq<Alert>)

  /** Formats an instant in UTC as RFC 3339 with nanoseconds. */
  type TimeFormat = int -> string

  ghost function Fields(fmt: TimeFormat, a: Alert): seq<string> {
    [a.status, a.fingerprint, fmt(a.startsAt), fmt(a.endsAt), a.generatorURL, MapString(a.labels), MapString(a.annotations), a.valueString]
  }

  ghost function AlertString(fmt: TimeFormat, a: Alert): string {
    Join(Fields(fmt, a), "|")
  }

  ghost function Image<T(!new)>(f: T -> string, xs: seq<T>): (r: seq<string>)
    ensures |r| == |xs| && forall i :: 0 <= i < |r| ==> r[i] == f(xs[i])
  {
    seq(|xs|, i requires 0 <= i < |xs| => f(xs[i]))
  }

  ghost function AlertStrings(fmt: TimeFormat, alerts: seq<Alert>): (r: seq<string>)
    ensures |r| == |alerts| && forall i :: 0 <= i < |r| ==> r[i] == AlertString(fmt, alerts[i])
  {
    Image(a => AlertString(fmt, a), alerts)
  }

  lemma SortedExists(xs: seq<string>)
    ensures exists r :: Sorted(r) && multiset(r) == multiset(xs)
  {
    var r := SomeSorted(xs);
  }

  ghost function SortedList(xs: seq<string>): (r: seq<string>)
    ensures Sorted(r) && multiset(r) == multiset(xs)
  {
    SortedExists(xs);
    var r :| Sorted(r) && multiset(r) == multiset(xs);
    r
  }

  /** The six header strings. */
  function Texts(p: Payload): seq<string> {
    [p.receiver, p.status, p.groupKey, p.externalURL, p.title, p.message]
  }

  ghost function MapTexts(p: Payload): seq<string> {
    [MapString(p.groupLabels), MapString(p.commonLabels), MapString(p.commonAnnotations)]
  }

  ghost function Header(p: Payload): seq<string> {
    Texts(p) + MapTexts(p)
  }

  ghost function Canonical(fmt: TimeFormat, p: Payload): string {
    Join(Header(p), "|") + "|" + Join(SortedList(AlertStrings(fmt, p.alerts)), "||")
  }

  method WriteAlerts(fmt: TimeFormat, list: seq<Alert>) returns (alerts: seq<string>)
    ensures alerts == AlertStrings(fmt, list)
  {
    alerts := [];
    for k := 0 to |list|
      invariant |alerts| == k && forall i :: 0 <= i < k ==> alerts[i] == AlertString(fmt, list[i])
    {
      var a := list[k];
      var labels := StableMapString(a.labels);
      var annotations := StableMapString(a.annotations);
      alerts := alerts + [Join([a.status, a.fingerprint, fmt(a.startsAt), fmt(a.endsAt), a.generatorURL,
                                labels, annotations, a.valueString], "|")];
    }
  }

  /** What a builder holds after each field was written with a bar behind it. */
  function Barred(fields: seq<string>): string {
    if fields == [] then "" else Join(fields, "|") + "|"
  }

  lemma BarredNext(fields: seq<string>, last: string)
    ensures Barred(fields + [last]) == Barred(fields) + last + "|"
  {
    if fields == [] {
      assert fields + [last] == [last];
    } else {
      JoinAppend(fields, [last], "|");
    }
  }

  method WriteFields(fields: seq<string>) returns (builder: string)
    ensures builder == Barred(fields)
  {
    builder := "";
    for k := 0 to |fields|
      invariant builder == Barred(fields[..k])
    {
      BarredNext(fields[..k], fields[k]);
      assert fields[..k + 1] == fields[..k] + [fields[k]];
      builder := builder + fields[k] + "|";
    }
    assert fields[..|fields|] == fields;
  }

  method WriteHeader(p: Payload) returns (builder: string)
    ensures builder == Join(Header(p), "|") + "|"
  {
    var groupLabels := StableMapString(p.groupLabels);
    var commonLabels := StableMapString(p.commonLabels);
    var commonAnnotations := StableMapString(p.commonAnnotations);
    builder := WriteFields(Texts(p) + [groupLabels, commonLabels, commonAnnotations]);
  }

  method WriteSorted(fmt: TimeFormat, list: seq<Alert>) returns (section: string)
    ensures section == Join(SortedList(AlertStrings(fmt, list)), "||")
  {
    var alerts := WriteAlerts(fmt, list);
    ghost var written := alerts;
    alerts := SortStrings(alerts);
    SortedUnique(alerts, SortedList(written));
    section := Join(alerts, "||");
  }

  /** The string that is hashed; the key is its SHA-256, here any function. */
  method ComputeFingerprint<K>(p: Payload, fmt: TimeFormat, hash: string -> K) returns (key: K)
    ensures key == hash(Canonical(fmt, p))
  {
    var builder := WriteHeader(p);
    var section := WriteSorted(fmt, p.alerts);
    key := hash(builder + section);
  }

  lemma SortedCons(k: string, rest: seq<string>)
    requires Sorted(rest) && forall i :: 0 <= i < |rest| ==> Leq(k, rest[i])
    ensures Sorted([k] + rest)
  {
  }

  /** The least key first, then the others in order. */
  lemma SortedKeysHead(ks: set<string>, k: string)
    requires k in ks && forall x :: x in ks ==> Leq(k, x)
    ensures SortedKeys(ks) == [k] + SortedKeys(ks - {k})
  {
    var rest := SortedKeys(ks - {k});
    KeysOf(ks - {k}, rest);
    SortedCons(k, rest);
    assert ks == {k} + (ks - {k});
    assert multiset([k] + rest) == multiset{k} + multiset(rest);
    SortedUnique(SortedKeys(ks), [k] + rest);
  }

  lemma SamePairs(m: map<string, string>, n: map<string, string>, ks: seq<string>)
    requires forall i :: 0 <= i < |ks| ==> ks[i] in m && ks[i] in n && m[ks[i]] == n[ks[i]]
    ensures Pairs(m, ks) == Pairs(n, ks)
  {
  }

  lemma OnlyKey(ks: set<string>, k: string, rest: seq<string>)
    requires k in ks && |rest| == |ks - {k}|
    ensures ks == {k} <==> rest == []
  {
    assert ks == {k} + (ks - {k});
  }

  lemma TailLayout(m: map<string, string>, n: map<string, string>, rest: seq<string>)
    requires forall i :: 0 <= i < |rest| ==> rest[i] in m && rest[i] in n && m[rest[i]] == n[rest[i]]
    ensures Tail(m, rest) == if rest == [] then "" else "," + Join(Pairs(n, rest), ",")
  {
    SamePairs(m, n, rest);
  }

  lemma HeadLayout(m: map<string, string>, k: string, rest: seq<string>)
    requires k in m
    ensures Join(Pairs(m, [k] + rest), ",") == k + "=" + m[k] + Tail(m, rest)
  {
    PairsHead(m, [k] + rest);
    assert ([k] + rest)[1..] == rest;
  }

  /** A map is written key by key in order, `key=value`, with commas between. */
  lemma MapStringLayout(m: map<string, string>, k: string)
    requires k in m && forall x :: x in m ==> Leq(k, x)
    ensures MapString(m) == k + "=" + m[k] + if m.Keys == {k} then "" else "," + MapString(m - {k})
  {
    var rest := SortedKeys(m.Keys - {k});
    KeysOf(m.Keys - {k}, rest);
    SortedKeysHead(m.Keys, k);
    HeadLayout(m, k, rest);
    assert (m - {k}).Keys == m.Keys - {k};
    TailLayout(m, m - {k}, rest);
    OnlyKey(m.Keys, k, rest);
  }

  lemma JoinLast(front: seq<string>, last: string)
    requires front != []
    ensures Join(front + [last], "|") == Join(front, "|") + "|" + last
  {
    JoinAppend(front, [last], "|");
  }

  lemma JoinEight(a: string, b: string, c: string, d: string, e: string, f: string, g: string, h: string)
    ensures Join([a, b, c, d, e, f, g, h], "|")
         == a + "|" + b + "|" + c + "|" + d + "|" + e + "|" + f + "|" + g + "|" + h
  {
    JoinLast([a, b, c, d, e, f, g], h);
    JoinLast([a, b, c, d, e, f], g);
    JoinLast([a, b, c, d, e], f);
    JoinLast([a, b, c, d], e);
    JoinLast([a, b, c], d);
    JoinLast([a, b], c);
    JoinLast([a], b);
    assert [a] + [b] == [a, b] && [a, b] + [c] == [a, b, c] && [a, b, c] + [d] == [a, b, c, d];
    assert [a, b, c, d] + [e] == [a, b, c, d, e] && [a, b, c, d, e] + [f] == [a, b, c, d, e, f];
    assert [a, b, c, d, e, f] + [g] == [a, b, c, d, e, f, g] && [a, b, c, d, e, f, g] + [h] == [a, b, c, d, e, f, g, h];
  }

  lemma AlertLayout(fmt: TimeFormat, a: Alert)
    ensures AlertString(fmt, a)
         == a.status + "|" + a.fingerprint + "|" + fmt(a.startsAt) + "|" + fmt(a.endsAt) + "|" + a.generatorURL + "|"
            + MapString(a.labels) + "|" + MapString(a.annotations) + "|" + a.valueString
  {
    JoinEight(a.status, a.fingerprint, fmt(a.startsAt), fmt(a.endsAt), a.generatorURL, MapString(a.labels), MapString(a.annotations), a.valueString);
  }

  /** The layout, field by field. */
  lemma CanonicalLayout(fmt: TimeFormat, p: Payload)
    ensures Canonical(fmt, p)
         == p.receiver + "|" + p.status + "|" + p.groupKey + "|" + p.externalURL + "|" + p.title + "|" + p.message + "|"
            + MapString(p.groupLabels) + "|" + MapString(p.commonLabels) + "|" + MapString(p.commonAnnotations) + "|"
            + Join(SortedList(AlertStrings(fmt, p.alerts)), "||")
  {
    var h := Header(p);
    assert h == [h[0], h[1], h[2], h[3], h[4], h[5], h[6], h[7], h[8]];
    BarredNext(h[..8], h[8]);
    BarredNext(h[..7], h[7]);
    BarredNext(h[..6], h[6]);
    BarredNext(h[..5], h[5]);
    BarredNext(h[..4], h[4]);
    BarredNext(h[..3], h[3]);
    BarredNext(h[..2], h[2]);
    BarredNext(h[..1], h[1]);
    BarredNext([], h[0]);
    assert h[..1] == [] + [h[0]] && h[..2] == h[..1] + [h[1]] && h[..3] == h[..2] + [h[2]] && h[..4] == h[..3] + [h[3]];
    assert h[..5] == h[..4] + [h[4]] && h[..6] == h[..5] + [h[5]] && h[..7] == h[..6] + [h[6]] && h[..8] == h[..7] + [h[7]];
    assert h == h[..8] + [h[8]];
  }

  // ---------------------------------------------------------------------------------------------
  // Canonical: the order of the alerts does not matter
  // ---------------------------------------------------------------------------------------------

  function Without<T>(xs: seq<T>, j: nat): (r: seq<T>)
    requires j < |xs|
    ensures |r| == |xs| - 1
  {
    xs[..j] + xs[j + 1..]
  }

  lemma WithoutCounts<T>(xs: seq<T>, j: nat)
    requires j < |xs|
    ensures multiset(xs) == multiset(Without(xs, j)) + multiset{xs[j]}
  {
    assert xs == xs[..j] + [xs[j]] + xs[j + 1..];
  }

  lemma Cancel<T>(a: multiset<T>, b: multiset<T>, x: T)
    ensures a + multiset{x} == b + multiset{x} <==> a == b
  {
    assert a == a + multiset{x} - multiset{x} && b == b + multiset{x} - multiset{x};
  }

  /** Taking the same item out of two lists changes nothing about their being permutations. */
  lemma WithoutSame<T>(xs: seq<T>, i: nat, ys: seq<T>, j: nat)
    requires i < |xs| && j < |ys| && xs[i] == ys[j]
    ensures multiset(xs) == multiset(ys) <==> multiset(Without(xs, i)) == multiset(Without(ys, j))
  {
    WithoutCounts(xs, i);
    WithoutCounts(ys, j);
    Cancel(multiset(Without(xs, i)), multiset(Without(ys, j)), xs[i]);
  }

  lemma ImageWithout<T(!new)>(f: T -> string, xs: seq<T>, j: nat)
    requires j < |xs|
    ensures Without(Image(f, xs), j) == Image(f, Without(xs, j))
  {
  }

  lemma ImagesWithoutSame<T(!new)>(f: T -> string, xs: seq<T>, i: nat, ys: seq<T>, j: nat)
    requires i < |xs| && j < |ys| && xs[i] == ys[j]
    ensures multiset(xs) == multiset(ys) <==> multiset(Without(xs, i)) == multiset(Without(ys, j))
    ensures multiset(Image(f, xs)) == multiset(Image(f, ys))
        <==> multiset(Image(f, Without(xs, i))) == multiset(Image(f, Without(ys, j)))
  {
    WithoutSame(xs, i, ys, j);
    WithoutSame(Image(f, xs), i, Image(f, ys), j);
    ImageWithout(f, xs, i);
    ImageWithout(f, ys, j);
  }

  lemma FindItem<T>(x: T, xs: seq<T>, ys: seq<T>) returns (j: nat)
    requires multiset(xs) == multiset(ys) && x in xs
    ensures j < |ys| && ys[j] == x
  {
    assert x in multiset(ys);
    j :| j < |ys| && ys[j] == x;
  }

  lemma SameLength<T>(xs: seq<T>, ys: seq<T>)
    requires multiset(xs) == multiset(ys)
    ensures |xs| == |ys|
  {
    assert |multiset(xs)| == |xs| && |multiset(ys)| == |ys|;
  }

  lemma {:induction false} SameItemsSameImages<T(!new)>(f: T -> string, xs: seq<T>, ys: seq<T>)
    requires multiset(xs) == multiset(ys)
    ensures multiset(Image(f, xs)) == multiset(Image(f, ys))
    decreases |xs|
  {
    SameLength(xs, ys);
    if xs != [] {
      var j := FindItem(xs[0], xs, ys);
      ImagesWithoutSame(f, xs, 0, ys, j);
      SameItemsSameImages(f, Without(xs, 0), Without(ys, j));
    }
  }

  lemma {:induction false} SameImagesSameItems<T(!new)>(f: T -> string, xs: seq<T>, ys: seq<T>)
    requires forall x, y :: x in xs && y in ys && f(x) == f(y) ==> x == y
    requires multiset(Image(f, xs)) == multiset(Image(f, ys))
    ensures multiset(xs) == multiset(ys)
    decreases |xs|
  {
    SameLength(Image(f, xs), Image(f, ys));
    if xs != [] {
      assert Image(f, xs)[0] == f(xs[0]);
      var j := FindItem(f(xs[0]), Image(f, xs), Image(f, ys));
      ImagesWithoutSame(f, xs, 0, ys, j);
      SameImagesSameItems(f, Without(xs, 0), Without(ys, j));
    }
  }

  /** Any permutation of the alerts has the same canonical string, hence the same key. */
  lemma CanonicalUnderPermutation(fmt: TimeFormat, p: Payload, alerts: seq<Alert>)
    requires multiset(alerts) == multiset(p.alerts)
    ensures Canonical(fmt, p.(alerts := alerts)) == Canonical(fmt, p)
  {
    SameItemsSameImages(a => AlertString(fmt, a), alerts, p.alerts);
    SortedUnique(SortedList(AlertStrings(fmt, alerts)), SortedList(AlertStrings(fmt, p.alerts)));
  }

  // ---------------------------------------------------------------------------------------------
  // Unambiguous: separator-free payloads can be read back
  // ---------------------------------------------------------------------------------------------

  /** Distinct instants have distinct texts, and no text holds a bar. */
  ghost predicate FaithfulFormat(fmt: TimeFormat) {
    (forall t :: '|' !in fmt(t)) && forall t, u :: fmt(t) == fmt(u) ==> t == u
  }

  /** A map without the separators , = | where they would confuse. */
  predicate PlainMap(m: map<string, string>) {
    CleanMap(m) && forall k :: k in m ==> '|' !in k && '|' !in m[k]
  }

  predicate PlainAlert(a: Alert) {
    && '|' !in a.status && '|' !in a.fingerprint && '|' !in a.generatorURL && '|' !in a.valueString
    && PlainMap(a.labels) && PlainMap(a.annotations)
  }

  predicate PlainHeader(p: Payload) {
    Free('|', Texts(p)) && PlainMap(p.groupLabels) && PlainMap(p.commonLabels) && PlainMap(p.commonAnnotations)
  }

  predicate PlainPayload(p: Payload) {
    PlainHeader(p) && forall i :: 0 <= i < |p.alerts| ==> PlainAlert(p.alerts[i])
  }

  lemma MapStringFree(m: map<string, string>)
    requires PlainMap(m)
    ensures '|' !in MapString(m)
  {
    PairsFree(m, SortedKeys(m.Keys), '|');
    JoinFree(Pairs(m, SortedKeys(m.Keys)), ",", '|');
  }

  lemma FieldsFree(fmt: TimeFormat, a: Alert)
    requires FaithfulFormat(fmt) && PlainAlert(a)
    ensures Free('|', Fields(fmt, a))
  {
    MapStringFree(a.labels);
    MapStringFree(a.annotations);
  }

  lemma FreeAppend(c: char, xs: seq<string>, ys: seq<string>)
    requires Free(c, xs) && Free(c, ys)
    ensures Free(c, xs + ys)
  {
  }

  lemma MapTextsFree(p: Payload)
    requires PlainHeader(p)
    ensures Free('|', MapTexts(p))
  {
    MapStringFree(p.groupLabels);
    MapStringFree(p.commonLabels);
    MapStringFree(p.commonAnnotations);
  }

  lemma HeaderFree(p: Payload)
    requires PlainHeader(p)
    ensures Free('|', Header(p))
  {
    MapTextsFree(p);
    FreeAppend('|', Texts(p), MapTexts(p));
  }

  lemma FieldsInjective(fmt: TimeFormat, a: Alert, b: Alert)
    requires FaithfulFormat(fmt) && PlainAlert(a) && PlainAlert(b) && Fields(fmt, a) == Fields(fmt, b)
    ensures a == b
  {
    var f, g := Fields(fmt, a), Fields(fmt, b);
    assert f[0] == g[0] && f[1] == g[1] && f[2] == g[2] && f[3] == g[3] && f[4] == g[4] && f[5] == g[5] && f[6] == g[6] && f[7] == g[7];
    MapStringInjective(a.labels, b.labels);
    MapStringInjective(a.annotations, b.annotations);
  }

  lemma AlertStringInjective(fmt: TimeFormat, a: Alert, b: Alert)
    requires FaithfulFormat(fmt) && PlainAlert(a) && PlainAlert(b) && AlertString(fmt, a) == AlertString(fmt, b)
    ensures a == b
  {
    FieldsFree(fmt, a);
    FieldsFree(fmt, b);
    SplitJoin(Fields(fmt, a), '|');
    SplitJoin(Fields(fmt, b), '|');
    FieldsInjective(fmt, a, b);
  }

  lemma SameStringsSameAlerts(fmt: TimeFormat, xs: seq<Alert>, ys: seq<Alert>)
    requires FaithfulFormat(fmt)
    requires forall i :: 0 <= i < |xs| ==> PlainAlert(xs[i])
    requires forall i :: 0 <= i < |ys| ==> PlainAlert(ys[i])
    requires multiset(AlertStrings(fmt, xs)) == multiset(AlertStrings(fmt, ys))
    ensures multiset(xs) == multiset(ys)
  {
    forall x, y | x in xs && y in ys && AlertString(fmt, x) == AlertString(fmt, y)
      ensures x == y
    {
      AlertStringInjective(fmt, x, y);
    }
    SameImagesSameItems(a => AlertString(fmt, a), xs, ys);
  }

  /** Splitting the alert section at every bar: eight fields an alert, an empty one between two alerts. */
  function Section(lists: seq<seq<string>>): seq<string> {
    if lists == [] then [""] else if |lists| == 1 then lists[0] else lists[0] + [""] + Section(lists[1..])
  }

  function JoinAll(lists: seq<seq<string>>): (r: seq<string>)
    ensures |r| == |lists| && forall i :: 0 <= i < |r| ==> r[i] == Join(lists[i], "|")
  {
    seq(|lists|, i requires 0 <= i < |lists| => Join(lists[i], "|"))
  }

  predicate Eights(lists: seq<seq<string>>) {
    forall i :: 0 <= i < |lists| ==> |lists[i]| == 8
  }

  lemma {:induction false} SectionJoin(lists: seq<seq<string>>)
    requires Eights(lists)
    ensures Section(lists) != [] && Join(JoinAll(lists), "||") == Join(Section(lists), "|")
  {
    if |lists| > 1 {
      var rest := Section(lists[1..]);
      SectionJoin(lists[1..]);
      assert JoinAll(lists)[1..] == JoinAll(lists[1..]);
      JoinAppend(lists[0], [""] + rest, "|");
      JoinAppend([""], rest, "|");
      assert lists[0] + [""] + rest == lists[0] + ([""] + rest);
      assert Join(lists[0], "|") + "|" + ("" + "|" + Join(rest, "|")) == Join(lists[0], "|") + "||" + Join(rest, "|");
    }
  }

  lemma {:induction false} SectionFree(lists: seq<seq<string>>)
    requires forall i :: 0 <= i < |lists| ==> Free('|', lists[i])
    ensures Free('|', Section(lists))
  {
    if |lists| > 1 {
      SectionFree(lists[1..]);
    }
  }

  lemma {:induction false} SectionLength(xs: seq<seq<string>>)
    requires Eights(xs)
    ensures |Section(xs)| == if xs == [] then 1 else 9 * |xs| - 1
  {
    if |xs| > 1 {
      SectionLength(xs[1..]);
    }
  }

  lemma {:induction false} SectionInjective(xs: seq<seq<string>>, ys: seq<seq<string>>)
    requires Eights(xs) && Eights(ys) && Section(xs) == Section(ys)
    ensures xs == ys
    decreases |xs|
  {
    SectionLength(xs);
    SectionLength(ys);
    if |xs| > 1 {
      var s, t := Section(xs), Section(ys);
      assert xs[0] == s[..8] && ys[0] == t[..8];
      assert Section(xs[1..]) == s[9..] && Section(ys[1..]) == t[9..];
      SectionInjective(xs[1..], ys[1..]);
      assert xs == [xs[0]] + xs[1..] && ys == [ys[0]] + ys[1..];
    } else {
      assert |xs| == |ys|;
    }
  }

  predicate FieldList(fields: seq<string>) {
    |fields| == 8 && Free('|', fields)
  }

  ghost predicate HasFields(s: string) {
    exists fields :: FieldList(fields) && s == Join(fields, "|")
  }

  lemma AlertStringHasFields(fmt: TimeFormat, alerts: seq<Alert>, s: string)
    requires FaithfulFormat(fmt) && (forall i :: 0 <= i < |alerts| ==> PlainAlert(alerts[i]))
    requires s in AlertStrings(fmt, alerts)
    ensures HasFields(s)
  {
    var j :| 0 <= j < |alerts| && s == AlertString(fmt, alerts[j]);
    FieldsFree(fmt, alerts[j]);
    assert FieldList(Fields(fmt, alerts[j]));
  }

  lemma JoinAllCons(first: seq<string>, rest: seq<seq<string>>)
    ensures JoinAll([first] + rest) == [Join(first, "|")] + JoinAll(rest)
  {
  }

  lemma {:induction false} TakenApart(strings: seq<string>) returns (lists: seq<seq<string>>)
    requires forall i :: 0 <= i < |strings| ==> HasFields(strings[i])
    ensures forall i :: 0 <= i < |lists| ==> FieldList(lists[i])
    ensures JoinAll(lists) == strings
  {
    if strings == [] {
      lists := [];
    } else {
      assert HasFields(strings[0]);
      var first :| FieldList(first) && strings[0] == Join(first, "|");
      var rest := TakenApart(strings[1..]);
      lists := [first] + rest;
      JoinAllCons(first, rest);
      assert strings == [strings[0]] + strings[1..];
    }
  }

  /** The sorted alert strings, each taken apart again. */
  lemma SortedFields(fmt: TimeFormat, p: Payload) returns (lists: seq<seq<string>>)
    requires FaithfulFormat(fmt) && PlainPayload(p)
    ensures forall i :: 0 <= i < |lists| ==> FieldList(lists[i])
    ensures JoinAll(lists) == SortedList(AlertStrings(fmt, p.alerts))
  {
    var strings := SortedList(AlertStrings(fmt, p.alerts));
    forall i | 0 <= i < |strings|
      ensures HasFields(strings[i])
    {
      assert strings[i] in multiset(strings);
      AlertStringHasFields(fmt, p.alerts, strings[i]);
    }
    lists := TakenApart(strings);
  }

  lemma CanonicalTokens(fmt: TimeFormat, p: Payload) returns (lists: seq<seq<string>>)
    requires FaithfulFormat(fmt) && PlainPayload(p)
    ensures Eights(lists) && JoinAll(lists) == SortedList(AlertStrings(fmt, p.alerts))
    ensures Split(Canonical(fmt, p), '|') == Header(p) + Section(lists)
  {
    lists := SortedFields(fmt, p);
    assert forall i :: 0 <= i < |lists| ==> FieldList(lists[i]);
    SectionJoin(lists);
    JoinAppend(Header(p), Section(lists), "|");
    HeaderFree(p);
    SectionFree(lists);
    SplitJoin(Header(p) + Section(lists), '|');
  }

  lemma TextsInjective(p: Payload, q: Payload)
    requires Texts(p) == Texts(q)
    ensures p == q.(groupLabels := p.groupLabels, commonLabels := p.commonLabels, commonAnnotations := p.commonAnnotations,
                    alerts := p.alerts)
  {
    var f, g := Texts(p), Texts(q);
    assert f[0] == g[0] && f[1] == g[1] && f[2] == g[2] && f[3] == g[3] && f[4] == g[4] && f[5] == g[5];
  }

  lemma HeaderInjective(p: Payload, q: Payload)
    requires PlainHeader(p) && PlainHeader(q) && Header(p) == Header(q)
    ensures p == q.(alerts := p.alerts)
  {
    var f, g := Header(p), Header(q);
    assert f[..6] == Texts(p) && g[..6] == Texts(q);
    TextsInjective(p, q);
    assert f[6] == g[6] && f[7] == g[7] && f[8] == g[8];
    MapStringInjective(p.groupLabels, q.groupLabels);
    MapStringInjective(p.commonLabels, q.commonLabels);
    MapStringInjective(p.commonAnnotations, q.commonAnnotations);
  }

  /** Equal canonical strings of separator-free payloads: equal headers, equal maps, the same alerts up to order. */
  lemma CanonicalInjective(fmt: TimeFormat, p: Payload, q: Payload)
    requires FaithfulFormat(fmt) && PlainPayload(p) && PlainPayload(q)
    requires Canonical(fmt, p) == Canonical(fmt, q)
    ensures p == q.(alerts := p.alerts) && multiset(p.alerts) == multiset(q.alerts)
  {
    var xs := CanonicalTokens(fmt, p);
    var ys := CanonicalTokens(fmt, q);
    assert (Header(p) + Section(xs))[..9] == Header(p) && (Header(q) + Section(ys))[..9] == Header(q);
    assert (Header(p) + Section(xs))[9..] == Section(xs) && (Header(q) + Section(ys))[9..] == Section(ys);
    HeaderInjective(p, q);
    SectionInjective(xs, ys);
    SameStringsSameAlerts(fmt, p.alerts, q.alerts);
  }

  // ---------------------------------------------------------------------------------------------
  // Ambiguous: exactly when a header string holds a bar
  // ---------------------------------------------------------------------------------------------

  function Bars(s: string): nat {
    if s == "" then 0 else (if s[0] == '|' then 1 else 0) + Bars(s[1..])
  }

  lemma {:induction false} BarsAppend(s: string, t: string)
    ensures Bars(s + t) == Bars(s) + Bars(t)
  {
    if s == "" {
      assert s + t == t;
    } else {
      assert (s + t)[1..] == s[1..] + t;
      BarsAppend(s[1..], t);
    }
  }

  lemma {:induction false} NoBars(s: string)
    ensures Bars(s) == 0 <==> '|' !in s
  {
    if s != "" {
      NoBars(s[1..]);
      assert s == [s[0]] + s[1..];
    }
  }

  function AllBars(xs: seq<string>): nat {
    if xs == [] then 0 else Bars(xs[0]) + AllBars(xs[1..])
  }

  lemma {:induction false} AllBarsFree(xs: seq<string>)
    ensures AllBars(xs) == 0 <==> Free('|', xs)
  {
    if xs != [] {
      NoBars(xs[0]);
      AllBarsFree(xs[1..]);
      assert forall i :: 0 < i < |xs| ==> xs[i] == xs[1..][i - 1];
    }
  }

  lemma {:induction false} BarsOfJoin(xs: seq<string>)
    requires xs != []
    ensures Bars(Join(xs, "|")) == AllBars(xs) + |xs| - 1
  {
    if |xs| > 1 {
      BarsOfJoin(xs[1..]);
      BarsAppend(xs[0] + "|", Join(xs[1..], "|"));
      BarsAppend(xs[0], "|");
      assert Bars("|") == 1 + Bars("|"[1..]);
    } else {
      assert AllBars(xs) == Bars(xs[0]) + AllBars(xs[1..]);
    }
  }

  /** As many fields, none of the first with a bar, joined to the same string: the same fields. */
  lemma JoinUnique(xs: seq<string>, ys: seq<string>)
    requires xs != [] && |xs| == |ys| && Free('|', xs) && Join(xs, "|") == Join(ys, "|")
    ensures xs == ys
  {
    BarsOfJoin(xs);
    BarsOfJoin(ys);
    AllBarsFree(xs);
    AllBarsFree(ys);
    SplitJoin(xs, '|');
    SplitJoin(ys, '|');
  }

  lemma TwoThenRest(a: string, b: string, post: seq<string>)
    ensures Join([a, b] + post, "|") == a + "|" + b + if post == [] then "" else "|" + Join(post, "|")
  {
    if post == [] {
      assert [a, b] + post == [a] + [b];
      JoinAppend([a], [b], "|");
    } else {
      JoinAppend([a, b], post, "|");
      assert [a, b] == [a] + [b];
      JoinAppend([a], [b], "|");
    }
  }

  /** A bar between two neighbouring fields may move from one into the other. */
  lemma {:induction false} JoinMovesBar(pre: seq<string>, a: string, b: string, a': string, b': string, post: seq<string>)
    requires a + "|" + b == a' + "|" + b'
    ensures Join(pre + [a, b] + post, "|") == Join(pre + [a', b'] + post, "|")
  {
    var xs, ys := pre + [a, b] + post, pre + [a', b'] + post;
    if pre == [] {
      TwoThenRest(a, b, post);
      TwoThenRest(a', b', post);
      assert xs == [a, b] + post && ys == [a', b'] + post;
    } else {
      assert xs[1..] == pre[1..] + [a, b] + post && ys[1..] == pre[1..] + [a', b'] + post;
      JoinMovesBar(pre[1..], a, b, a', b', post);
    }
  }

  /** Fields with a bar in one of them have other fields with the same join. */
  lemma OtherFields(xs: seq<string>, i: nat) returns (ys: seq<string>)
    requires |xs| >= 2 && i < |xs| && '|' in xs[i]
    ensures |ys| == |xs| && ys != xs && Join(ys, "|") == Join(xs, "|")
  {
    var k :| 0 <= k < |xs[i]| && xs[i][k] == '|';
    var x, y := xs[i][..k], xs[i][k + 1..];
    assert xs[i] == x + "|" + y;
    if i + 1 < |xs| {
      var pre, post, z := xs[..i], xs[i + 2..], xs[i + 1];
      ys := pre + [x, y + "|" + z] + post;
      assert xs == pre + [xs[i], z] + post;
      assert xs[i] + "|" + z == x + "|" + (y + "|" + z);
      JoinMovesBar(pre, xs[i], z, x, y + "|" + z, post);
      assert ys[i] == x && |x| < |xs[i]|;
    } else {
      var pre, z := xs[..i - 1], xs[i - 1];
      ys := pre + [z + "|" + x, y] + [];
      assert xs == pre + [z, xs[i]] + [];
      assert z + "|" + xs[i] == z + "|" + x + "|" + y;
      JoinMovesBar(pre, z, xs[i], z + "|" + x, y, []);
      assert ys[i] == y && |y| < |xs[i]|;
    }
  }

  function WithTexts(p: Payload, xs: seq<string>): (q: Payload)
    requires |xs| == 6
    ensures Texts(q) == xs
  {
    p.(receiver := xs[0], status := xs[1], groupKey := xs[2], externalURL := xs[3], title := xs[4], message := xs[5])
  }

  /** What follows the header strings. */
  ghost function Rest(fmt: TimeFormat, p: Payload): string {
    "|" + Join(MapTexts(p), "|") + "|" + Join(SortedList(AlertStrings(fmt, p.alerts)), "||")
  }

  lemma CanonicalOfTexts(fmt: TimeFormat, p: Payload)
    ensures Canonical(fmt, p) == Join(Texts(p), "|") + Rest(fmt, p)
  {
    JoinAppend(Texts(p), MapTexts(p), "|");
  }

  lemma PrefixUnique(a: string, b: string, rest: string)
    requires a + rest == b + rest
    ensures a == b
  {
    assert |a| == |b|;
    assert (a + rest)[..|a|] == a && (b + rest)[..|b|] == b;
  }

  /** Another payload that differs in the header strings only, and cannot be told from p by its canonical string. */
  ghost predicate Confused(fmt: TimeFormat, p: Payload, xs: seq<string>) {
    |xs| == 6 && xs != Texts(p) && Canonical(fmt, WithTexts(p, xs)) == Canonical(fmt, p)
  }

  /** The header of a payload is ambiguous if and only if one of its six strings holds a bar, whatever its maps and alerts. */
  lemma HeaderAmbiguousIff(fmt: TimeFormat, p: Payload)
    ensures (exists xs :: Confused(fmt, p, xs)) <==> !Free('|', Texts(p))
  {
    CanonicalOfTexts(fmt, p);
    if !Free('|', Texts(p)) {
      var i: nat :| i < |Texts(p)| && '|' in Texts(p)[i];
      var xs := OtherFields(Texts(p), i);
      CanonicalOfTexts(fmt, WithTexts(p, xs));
      assert Confused(fmt, p, xs);
    } else {
      forall xs | |xs| == 6 && Canonical(fmt, WithTexts(p, xs)) == Canonical(fmt, p)
        ensures xs == Texts(p)
      {
        CanonicalOfTexts(fmt, WithTexts(p, xs));
        PrefixUnique(Join(xs, "|"), Join(Texts(p), "|"), Rest(fmt, p));
        JoinUnique(Texts(p), xs);
      }
    }
  }
}
