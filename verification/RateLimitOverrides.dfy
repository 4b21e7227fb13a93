/** Rate-limit overrides: one script suggests a string of `prefix=value` pairs, another one reads it. */
module RateLimitOverrides {
  import opened Numbers
  import opened Strings
  import opened Sorting
  import opened Documents

  // ---------------------------------------------------------------- the suggestion

  datatype Weights = Weights(headroom: real, burstWeight: real, blockedWeight: real, bias: real)

  const VPS_SMALL := Weights(0.16, 0.32, 18.0, 2.0)
  const VPS_MEDIUM := Weights(0.24, 0.4, 24.0, 3.0)
  const DISKLESS := Weights(0.14, 0.28, 16.0, 2.0)

  datatype Route = Route(prefix: string, p95Rps: real, blockedRate: real, burstFactor: real)
  datatype Bounds = Bounds(floor: Option<int>, ceiling: Option<int>)
  datatype Suggested = Suggested(prefix: string, value: int)

  predicate IsPrefixChar(c: char) { !IsSpace(c) && c != ',' && c != '=' }

  /** A trimmed prefix without white space, commas and equal signs. */
  predicate ValidPrefix(p: string) { p != "" && forall i | 0 <= i < |p| :: IsPrefixChar(p[i]) }

  function Quotient(v: Json): real
    requires v.Num?
  {
    v.n.units as real / v.n.parts as real
  }

  predicate InRange(v: Option<Json>, min: real, max: Option<real>) {
    v.Some? && v.value.Num? && Quotient(v.value) >= min && (max.None? || Quotient(v.value) <= max.value)
  }

  /** One entry of the input; `None` when the script gives up on it. */
  function ReadRoute(entry: Json): Option<Route> {
    var prefix := Field(entry, RoutePrefix);
    var p95, blocked, burst := Field(entry, P95Rps), Field(entry, BlockedRate), Field(entry, BurstFactor);
    if !entry.Obj? || prefix.None? || !prefix.value.Str? || !ValidPrefix(Trim(prefix.value.s)) then None
    else if !InRange(p95, 0.0, None) || !InRange(blocked, 0.0, Some(1.0)) || !InRange(burst, 1.0, None) then None
    else Some(Route(Trim(prefix.value.s), Quotient(p95.value), Quotient(blocked.value), Quotient(burst.value)))
  }

  predicate HasPrefix(routes: seq<Route>, p: string) { exists k | 0 <= k < |routes| :: routes[k].prefix == p }

  lemma AddsPrefix(routes: seq<Route>, r: Route)
    ensures forall p :: HasPrefix(routes + [r], p) <==> HasPrefix(routes, p) || p == r.prefix
  {
    var more := routes + [r];
    assert more[|routes|] == r;
    forall p ensures HasPrefix(more, p) <==> HasPrefix(routes, p) || p == r.prefix {
      if k :| 0 <= k < |routes| && routes[k].prefix == p { assert more[k].prefix == p; }
    }
  }

  /** The first `n` routes; `None` when an entry is invalid or repeats a prefix. */
  function Routes(input: seq<Json>, n: nat): Option<seq<Route>>
    requires n <= |input|
  {
    if n == 0 then Some([])
    else
      var before, route := Routes(input, n - 1), ReadRoute(input[n - 1]);
      if before.None? || route.None? then None
      else if HasPrefix(before.value, route.value.prefix) then None
      else Some(before.value + [route.value])
  }

  method ValidateRouteStats(input: seq<Json>) returns (r: Option<seq<Route>>)
    ensures r == Routes(input, |input|)
  {
    hide ReadRoute;
    var seen: set<string> := {};
    var routes: seq<Route> := [];
    for i := 0 to |input|
      invariant Routes(input, i) == Some(routes)
      invariant forall p :: p in seen <==> HasPrefix(routes, p)
    {
      var route := ReadRoute(input[i]);
      if route.None? || route.value.prefix in seen {
        GivesUp(input, i + 1, |input|);
        return None;
      }
      AddsPrefix(routes, route.value);
      seen := seen + {route.value.prefix};
      routes := routes + [route.value];
    }
    r := Some(routes);
  }

  lemma {:induction false} GivesUp(input: seq<Json>, k: nat, n: nat)
    requires k <= n <= |input| && Routes(input, k).None?
    ensures Routes(input, n).None?
  {
    hide ReadRoute;
    if k < n { GivesUp(input, k, n - 1); }
  }

  function Max(a: int, b: int): int { if a >= b then a else b }
  function Min(a: int, b: int): int { if a <= b then a else b }
  function MaxReal(a: real, b: real): real { if a >= b then a else b }
  function Ceil(x: real): int { -((-x).Floor) }

  function Clamp(value: int, b: Bounds): int {
    var next := if b.floor.Some? then Max(value, b.floor.value) else value;
    if b.ceiling.Some? then Min(next, b.ceiling.value) else next
  }

  function RawValue(p: Weights, r: Route): int {
    Ceil(Raw(p, r.p95Rps, MaxReal(0.0, r.burstFactor - 1.0), r.blockedRate))
  }

  function Raw(p: Weights, rate: real, burstLift: real, blockedRate: real): real {
    rate * (1.0 + p.headroom + burstLift * p.burstWeight) + blockedRate * p.blockedWeight + p.bias
  }

  function Suggest(p: Weights, b: Bounds, r: Route): Suggested { Suggested(r.prefix, Max(1, Clamp(RawValue(p, r), b))) }

  function Suggestions(p: Weights, b: Bounds, routes: seq<Route>): (s: seq<Suggested>)
    ensures |s| == |routes| && forall i | 0 <= i < |routes| :: s[i] == Suggest(p, b, routes[i])
  {
    seq(|routes|, i requires 0 <= i < |routes| => Suggest(p, b, routes[i]))
  }

  /** `localeCompare` on the prefixes. */
  function ByPrefix(le: (string, string) -> bool): (Suggested, Suggested) -> bool {
    (a: Suggested, b: Suggested) => le(a.prefix, b.prefix)
  }

  function Entries(p: Weights, b: Bounds, routes: seq<Route>, le: (string, string) -> bool): seq<Suggested> {
    Sort(Suggestions(p, b, routes), ByPrefix(le))
  }

  function Pair(e: Suggested): string
    requires e.value >= 0
  {
    e.prefix + "=" + Decimal(e.value)
  }

  function Pairs(entries: seq<Suggested>): (r: seq<string>)
    requires forall i | 0 <= i < |entries| :: entries[i].value >= 0
    ensures |r| == |entries| && forall i | 0 <= i < |entries| :: r[i] == Pair(entries[i])
  {
    seq(|entries|, i requires 0 <= i < |entries| => Pair(entries[i]))
  }

  /** What goes into GATEWAY_RL_MAX_OVERRIDES. */
  function SuggestionText(entries: seq<Suggested>): string
    requires forall i | 0 <= i < |entries| :: entries[i].value >= 0
  {
    Join(Pairs(entries), ",")
  }

  /** Suggested values are at least 1 and, when the bounds make sense, within them. */
  lemma WithinBounds(p: Weights, b: Bounds, r: Route)
    ensures var v := Suggest(p, b, r).value;
      && v >= 1
      && (b.ceiling.Some? && b.ceiling.value >= 1 ==> v <= b.ceiling.value)
      && (b.floor.Some? && (b.ceiling.Some? ==> b.floor.value <= b.ceiling.value) ==> v >= b.floor.value)
      && (b.floor.None? && b.ceiling.None? && RawValue(p, r) >= 1 ==> v == RawValue(p, r))
  {
    hide RawValue;
  }

  // ---------------------------------------------------------------- the reader


  predicate AllDigits(s: string) { s != "" && forall i | 0 <= i < |s| :: IsDigit(s[i]) }

  /** `parseIntStrict`: an optional minus sign and digits, within the safe integers. */
  function ParseIntStrict(text: string): Option<int> {
    var t := Trim(text);
    var digits := if t != "" && t[0] == '-' then t[1..] else t;
    if !AllDigits(digits) then None
    else
      var magnitude: int := DecimalValue(digits);
      if magnitude > MAX_SAFE then None else Some(if digits == t then magnitude else -magnitude)
  }

  datatype Reading = NotSet | Malformed(entry: string) | InvalidEntry(entry: string) | Parsed(values: map<string, int>)

  function IndexOf(s: string, c: char): int {
    if s == "" then -1 else if s[0] == c then 0 else if IndexOf(s[1..], c) == -1 then -1 else 1 + IndexOf(s[1..], c)
  }

  /** The trimmed non-empty items among the first `n`. */
  function Items(parts: seq<string>, n: nat): seq<string>
    requires n <= |parts|
  {
    if n == 0 then [] else if Trim(parts[n - 1]) == "" then Items(parts, n - 1) else Items(parts, n - 1) + [Trim(parts[n - 1])]
  }

  function ReadEntry(entry: string, values: map<string, int>): Reading {
    var eq := IndexOf(entry, '=');
    if !(0 < eq < |entry|) then Malformed(entry)
    else
      var key, value := Trim(entry[..eq]), ParseIntStrict(entry[eq + 1..]);
      if key == "" || value.None? || value.value <= 0 then InvalidEntry(entry) else Parsed(values[key := value.value])
  }

  function ReadEntries(entries: seq<string>, n: nat): Reading
    requires n <= |entries|
  {
    if n == 0 then Parsed(map[])
    else
      match ReadEntries(entries, n - 1)
      case Parsed(values) => ReadEntry(entries[n - 1], values)
      case other => other
  }

  function ReadOverrides(raw: string): Reading {
    if !NonBlank(raw) then NotSet
    else var parts := Split(raw, ','); var entries := Items(parts, |parts|); ReadEntries(entries, |entries|)
  }

  /** What the hosting check complains about first; `None` when the overrides are fine. */
  datatype Complaint = Unset | MalformedEntry(entry: string) | BadEntry(entry: string) | Lacks(key: string)

  function RequiredKeys(): (r: seq<string>)
    ensures |r| == 3
  {
    ["inbox", "webhook", "template"]
  }

  function FirstLacking(values: map<string, int>, keys: seq<string>, n: nat): Option<string>
    requires n <= |keys|
    decreases |keys| - n
  {
    if n == |keys| then None else if keys[n] !in values then Some(keys[n]) else FirstLacking(values, keys, n + 1)
  }

  function ComplaintAbout(raw: string): Option<Complaint> {
    match ReadOverrides(raw)
    case NotSet => Some(Unset)
    case Malformed(e) => Some(MalformedEntry(e))
    case InvalidEntry(e) => Some(BadEntry(e))
    case Parsed(values) =>
      var lacking := FirstLacking(values, RequiredKeys(), 0);
      if lacking.Some? then Some(Lacks(lacking.value)) else None
  }

  method ValidateOverrides(raw: string) returns (r: Option<Complaint>)
    ensures r == ComplaintAbout(raw)
  {
    hide Trim, ReadEntry, RequiredKeys, NonBlank, Split;
    if !NonBlank(raw) { return Some(Unset); }
    var parts := Split(raw, ',');
    var entries: seq<string> := [];
    for i := 0 to |parts|
      invariant entries == Items(parts, i)
    {
      if Trim(parts[i]) != "" { entries := entries + [Trim(parts[i])]; }
    }
    var values: map<string, int> := map[];
    for i := 0 to |entries|
      invariant ReadEntries(entries, i) == Parsed(values)
    {
      match ReadEntry(entries[i], values) {
        case Malformed(e) =>
          StopsReading(entries, i + 1, |entries|);
          return Some(MalformedEntry(e));
        case InvalidEntry(e) =>
          StopsReading(entries, i + 1, |entries|);
          return Some(BadEntry(e));
        case Parsed(more) => values := more;
        case NotSet => NeverUnset(entries[i], values);
      }
    }
    var keys := RequiredKeys();
    var i := 0;
    while i < 3
      invariant 0 <= i <= 3 && FirstLacking(values, keys, 0) == FirstLacking(values, keys, i)
    {
      if keys[i] !in values { return Some(Lacks(keys[i])); }
      i := i + 1;
    }
    return None;
  }

  lemma NeverUnset(entry: string, values: map<string, int>)
    ensures !ReadEntry(entry, values).NotSet?
  {
  }

  lemma {:induction false} StopsReading(entries: seq<string>, k: nat, n: nat)
    requires k <= n <= |entries| && !ReadEntries(entries, k).Parsed?
    ensures ReadEntries(entries, n) == ReadEntries(entries, k)
  {
    hide ReadEntry;
    if k < n { StopsReading(entries, k, n - 1); }
  }

  // ---------------------------------------------------------------- reading the suggestion back

  ghost predicate GoodEntries(entries: seq<Suggested>) {
    && (forall i | 0 <= i < |entries| :: ValidPrefix(entries[i].prefix) && entries[i].value >= 1)
    && (forall i, j | 0 <= i < j < |entries| :: entries[i].prefix != entries[j].prefix)
  }

  /** The pairs of the first `n` entries. */
  function Values(entries: seq<Suggested>, n: nat): map<string, int>
    requires n <= |entries|
  {
    if n == 0 then map[] else Values(entries, n - 1)[entries[n - 1].prefix := entries[n - 1].value]
  }

  lemma PairShape(e: Suggested)
    requires ValidPrefix(e.prefix) && e.value >= 1
    ensures var t := Pair(e); ',' !in t && Trim(t) == t && t != ""
  {
    hide Trim;
    var t := Pair(e);
    assert t[0] == e.prefix[0] && IsPrefixChar(t[0]);
    assert t[|t| - 1] == Decimal(e.value)[|Decimal(e.value)| - 1] && IsDigit(t[|t| - 1]);
    TrimKeeps(t);
    forall i | 0 <= i < |t| ensures t[i] != ',' {
      if i < |e.prefix| { assert IsPrefixChar(e.prefix[i]); }
      else if i > |e.prefix| { assert IsDigit(Decimal(e.value)[i - |e.prefix| - 1]); }
    }
  }

  lemma {:induction false} IndexAfter(p: string, rest: string)
    requires '=' !in p
    ensures IndexOf(p + "=" + rest, '=') == |p|
  {
    if p != "" {
      IndexAfter(p[1..], rest);
      assert (p + "=" + rest)[1..] == p[1..] + "=" + rest;
      assert p == [p[0]] + p[1..];
    } else {
      assert p + "=" + rest == "=" + rest;
    }
  }

  lemma ParseDecimal(n: nat)
    ensures ParseIntStrict(Decimal(n)) == if n > MAX_SAFE then None else Some(n)
  {
    hide Trim;
    var t := Decimal(n);
    assert IsDigit(t[0]) && IsDigit(t[|t| - 1]);
    TrimKeeps(t);
    DecimalRoundTrip(n);
  }

  lemma PrefixFree(p: string)
    requires ValidPrefix(p)
    ensures '=' !in p && Trim(p) == p
  {
    hide Trim;
    assert IsPrefixChar(p[0]) && IsPrefixChar(p[|p| - 1]);
    TrimKeeps(p);
    forall i | 0 <= i < |p| ensures p[i] != '=' { assert IsPrefixChar(p[i]); }
  }

  lemma ReadPair(e: Suggested, values: map<string, int>)
    requires ValidPrefix(e.prefix) && e.value >= 1
    ensures ReadEntry(Pair(e), values) == if e.value > MAX_SAFE then InvalidEntry(Pair(e)) else Parsed(values[e.prefix := e.value])
  {
    hide Trim, ParseIntStrict, IndexOf;
    var t, n := Pair(e), |e.prefix|;
    PrefixFree(e.prefix);
    IndexAfter(e.prefix, Decimal(e.value));
    ParseDecimal(e.value);
    assert t[..n] == e.prefix && t[n + 1..] == Decimal(e.value);
  }

  lemma {:induction false} AllItems(parts: seq<string>, n: nat)
    requires n <= |parts| && forall i | 0 <= i < |parts| :: Trim(parts[i]) == parts[i] != ""
    ensures Items(parts, n) == parts[..n]
  {
    hide Trim;
    if n > 0 { AllItems(parts, n - 1); }
  }

  lemma {:induction false} ReadPairs(entries: seq<Suggested>, n: nat)
    requires n <= |entries| && GoodEntries(entries)
    ensures (forall i | 0 <= i < n :: entries[i].value <= MAX_SAFE) ==> ReadEntries(Pairs(entries), n) == Parsed(Values(entries, n))
    ensures (exists i | 0 <= i < n :: entries[i].value > MAX_SAFE) ==> ReadEntries(Pairs(entries), n).InvalidEntry?
  {
    hide Pair, ReadEntry, ValidPrefix;
    if n > 0 {
      ReadPairs(entries, n - 1);
      if ReadEntries(Pairs(entries), n - 1).Parsed? { ReadPair(entries[n - 1], ReadEntries(Pairs(entries), n - 1).values); }
    }
  }

  /** The hosting check reads the suggested string without a malformed or invalid entry, and gets exactly the suggested
      values, if and only if every value is a safe integer. */
  lemma OverridesRoundTrip(entries: seq<Suggested>)
    requires entries != [] && GoodEntries(entries)
    ensures ReadOverrides(SuggestionText(entries)).Parsed? <==> forall i | 0 <= i < |entries| :: entries[i].value <= MAX_SAFE
    ensures ReadOverrides(SuggestionText(entries)).Parsed? ==> ReadOverrides(SuggestionText(entries)) == Parsed(Values(entries, |entries|))
    ensures !ReadOverrides(SuggestionText(entries)).Malformed? && !ReadOverrides(SuggestionText(entries)).NotSet?
  {
    hide Pair, Trim, ReadEntry, Join, Split, NonBlank, ValidPrefix;
    var parts, text := Pairs(entries), SuggestionText(entries);
    forall i | 0 <= i < |parts| ensures ',' !in parts[i] && Trim(parts[i]) == parts[i] != "" { PairShape(entries[i]); }
    assert [','] == ",";
    SplitJoin(parts, ',');
    AllItems(parts, |parts|);
    assert parts[..|parts|] == parts;
    TextVisible(entries);
    ReadPairs(entries, |entries|);
  }

  lemma TextVisible(entries: seq<Suggested>)
    requires entries != [] && GoodEntries(entries)
    ensures NonBlank(SuggestionText(entries))
  {
    hide Trim, NonBlank;
    var text, p := SuggestionText(entries), entries[0].prefix;
    assert ValidPrefix(p) && IsPrefixChar(p[0]);
    assert text[0] == Pair(entries[0])[0] == p[0];
    VisibleIsNonBlank(text);
  }

  lemma {:induction false} ValuesAre(entries: seq<Suggested>, n: nat)
    requires n <= |entries| && forall i, j | 0 <= i < j < |entries| :: entries[i].prefix != entries[j].prefix
    ensures forall i | 0 <= i < n :: entries[i].prefix in Values(entries, n) && Values(entries, n)[entries[i].prefix] == entries[i].value
    ensures forall k | k in Values(entries, n) :: exists i | 0 <= i < n :: entries[i].prefix == k
  {
    if n > 0 { ValuesAre(entries, n - 1); }
  }

  lemma {:induction false} RoutesValid(input: seq<Json>, n: nat)
    requires n <= |input| && Routes(input, n).Some?
    ensures var routes := Routes(input, n).value;
      && (forall i | 0 <= i < |routes| :: ValidPrefix(routes[i].prefix))
      && (forall i, j | 0 <= i < j < |routes| :: routes[i].prefix != routes[j].prefix)
      && |routes| == n
  {
    hide ValidPrefix, Trim;
    if n > 0 { RoutesValid(input, n - 1); }
  }

  /** Sorting keeps the entries good, and keeps their values. */
  lemma SortedEntriesGood(p: Weights, b: Bounds, routes: seq<Route>, le: (string, string) -> bool)
    requires forall i | 0 <= i < |routes| :: ValidPrefix(routes[i].prefix)
    requires forall i, j | 0 <= i < j < |routes| :: routes[i].prefix != routes[j].prefix
    ensures GoodEntries(Entries(p, b, routes, le)) && |Entries(p, b, routes, le)| == |routes|
    ensures multiset(Entries(p, b, routes, le)) == multiset(Suggestions(p, b, routes))
  {
    hide ValidPrefix, Suggest, Sort;
    var unsorted, sorted := Suggestions(p, b, routes), Entries(p, b, routes, le);
    SortPermutes(unsorted, ByPrefix(le));
    assert |sorted| == |multiset(sorted)| == |multiset(unsorted)| == |unsorted|;
    forall i | 0 <= i < |sorted| ensures ValidPrefix(sorted[i].prefix) && sorted[i].value >= 1 {
      assert sorted[i] in multiset(unsorted);
      var k :| 0 <= k < |unsorted| && unsorted[k] == sorted[i];
      WithinBounds(p, b, routes[k]);
      SuggestKeepsPrefix(p, b, routes[k]);
    }
    forall i | 0 <= i < |routes| ensures unsorted[i].prefix == routes[i].prefix { SuggestKeepsPrefix(p, b, routes[i]); }
    DistinctPrefixes(unsorted, sorted);
  }

  lemma SuggestKeepsPrefix(p: Weights, b: Bounds, r: Route)
    ensures Suggest(p, b, r).prefix == r.prefix
  {
  }

  lemma DistinctPrefixes(a: seq<Suggested>, b: seq<Suggested>)
    requires multiset(a) == multiset(b) && forall i, j | 0 <= i < j < |a| :: a[i].prefix != a[j].prefix
    ensures forall i, j | 0 <= i < j < |b| :: b[i].prefix != b[j].prefix
  {
    NoDuplicatesMultiset(a);
    NoDuplicatesMultiset(b);
    forall i, j | 0 <= i < j < |b| ensures b[i].prefix != b[j].prefix {
      assert b[i] in multiset(a) && b[j] in multiset(a) && b[i] != b[j];
      var k :| 0 <= k < |a| && a[k] == b[i];
      var l :| 0 <= l < |a| && a[l] == b[j];
    }
  }

  lemma EntryOf(p: Weights, b: Bounds, routes: seq<Route>, entries: seq<Suggested>, i: nat) returns (k: nat)
    requires multiset(entries) == multiset(Suggestions(p, b, routes)) && i < |routes|
    ensures k < |entries| && entries[k].value == Suggest(p, b, routes[i]).value && entries[k].prefix == routes[i].prefix
  {
    hide Suggest;
    var unsorted := Suggestions(p, b, routes);
    assert unsorted[i] in multiset(entries);
    k :| 0 <= k < |entries| && entries[k] == unsorted[i];
    SuggestKeepsPrefix(p, b, routes[i]);
  }

  lemma RouteOf(p: Weights, b: Bounds, routes: seq<Route>, entries: seq<Suggested>, k: nat) returns (i: nat)
    requires multiset(entries) == multiset(Suggestions(p, b, routes)) && k < |entries|
    ensures i < |routes| && entries[k].value == Suggest(p, b, routes[i]).value && entries[k].prefix == routes[i].prefix
  {
    hide Suggest;
    var unsorted := Suggestions(p, b, routes);
    assert entries[k] in multiset(unsorted);
    i :| 0 <= i < |unsorted| && unsorted[i] == entries[k];
    SuggestKeepsPrefix(p, b, routes[i]);
  }

  /** A map that holds exactly the suggested values. */
  ghost predicate Holds(values: map<string, int>, p: Weights, b: Bounds, routes: seq<Route>) {
    && (forall i | 0 <= i < |routes| :: routes[i].prefix in values && values[routes[i].prefix] == Suggest(p, b, routes[i]).value)
    && (forall k | k in values :: HasPrefix(routes, k))
  }

  lemma AtPrefix(routes: seq<Route>, i: nat)
    requires i < |routes|
    ensures HasPrefix(routes, routes[i].prefix)
  {
  }

  lemma ValuesHold(p: Weights, b: Bounds, routes: seq<Route>, entries: seq<Suggested>)
    requires multiset(entries) == multiset(Suggestions(p, b, routes))
    requires forall i, j | 0 <= i < j < |entries| :: entries[i].prefix != entries[j].prefix
    ensures Holds(Values(entries, |entries|), p, b, routes)
  {
    hide Suggest, Values, Suggestions, HasPrefix;
    var values := Values(entries, |entries|);
    ValuesAre(entries, |entries|);
    forall i | 0 <= i < |routes| ensures routes[i].prefix in values && values[routes[i].prefix] == Suggest(p, b, routes[i]).value {
      var k := EntryOf(p, b, routes, entries, i);
    }
    forall k | k in values ensures HasPrefix(routes, k) {
      var j :| 0 <= j < |entries| && entries[j].prefix == k;
      var i := RouteOf(p, b, routes, entries, j);
      AtPrefix(routes, i);
    }
  }

  lemma SafeTogether(p: Weights, b: Bounds, routes: seq<Route>, entries: seq<Suggested>)
    requires multiset(entries) == multiset(Suggestions(p, b, routes))
    ensures (forall i | 0 <= i < |entries| :: entries[i].value <= MAX_SAFE) <==> forall i | 0 <= i < |routes| :: Suggest(p, b, routes[i]).value <= MAX_SAFE
  {
    hide Suggest, Suggestions;
    if k :| 0 <= k < |entries| && entries[k].value > MAX_SAFE { var i := RouteOf(p, b, routes, entries, k); }
    if i :| 0 <= i < |routes| && Suggest(p, b, routes[i]).value > MAX_SAFE { var k := EntryOf(p, b, routes, entries, i); }
  }

  /** From any accepted non-empty input, the suggested string is read back as exactly the suggested value of each route,
      if and only if those values are safe integers. */
  lemma SuggestionReadBack(input: seq<Json>, p: Weights, b: Bounds, le: (string, string) -> bool)
    requires input != [] && Routes(input, |input|).Some?
    ensures var routes := Routes(input, |input|).value; var entries := Entries(p, b, routes, le);
      && GoodEntries(entries)
      && (ReadOverrides(SuggestionText(entries)).Parsed? <==> forall i | 0 <= i < |routes| :: Suggest(p, b, routes[i]).value <= MAX_SAFE)
      && (ReadOverrides(SuggestionText(entries)).Parsed? ==> Holds(ReadOverrides(SuggestionText(entries)).values, p, b, routes))
  {
    hide Suggest, ReadOverrides, SuggestionText, Routes, Entries, ValidPrefix, Holds, Values;
    RoutesValid(input, |input|);
    var routes := Routes(input, |input|).value;
    SortedEntriesGood(p, b, routes, le);
    OverridesRoundTrip(Entries(p, b, routes, le));
    ValuesHold(p, b, routes, Entries(p, b, routes, le));
    SafeTogether(p, b, routes, Entries(p, b, routes, le));
  }

  // ---------------------------------------------------------------- what is accepted, suggested and read

  ghost predicate InBounds(v: Option<Json>, r: real, min: real) { v.Some? && v.value.Num? && r * (v.value.n.parts as real) == v.value.n.units as real && r >= min }

  /** The entry describes the route: a prefix without white space, comma and equal sign, and three numbers in range. */
  ghost predicate Describes(entry: Json, r: Route) {
    && entry.Obj? && Reads(Field(entry, RoutePrefix), r.prefix)
    && (forall i | 0 <= i < |r.prefix| :: !IsSpace(r.prefix[i]) && r.prefix[i] != ',' && r.prefix[i] != '=')
    && InBounds(Field(entry, P95Rps), r.p95Rps, 0.0) && InBounds(Field(entry, BlockedRate), r.blockedRate, 0.0) && r.blockedRate <= 1.0
    && InBounds(Field(entry, BurstFactor), r.burstFactor, 1.0)
  }

  lemma QuotientIs(v: Json, r: real)
    requires v.Num?
    ensures r * (v.n.parts as real) == v.n.units as real <==> r == Quotient(v)
  {
    var q, d := Quotient(v), v.n.parts as real;
    assert q * d == v.n.units as real;
    if r * d == v.n.units as real {
      assert (r - q) * d == 0.0;
    }
  }

  lemma NumberIs(v: Option<Json>, r: real, min: real)
    ensures InBounds(v, r, min) <==> InRange(v, min, None) && r == Quotient(v.value)
  {
    hide Quotient;
    if v.Some? && v.value.Num? { QuotientIs(v.value, r); }
  }

  lemma RouteDescribed(entry: Json, r: Route)
    ensures ReadRoute(entry) == Some(r) <==> Describes(entry, r)
  {
    hide InRange, Quotient, InBounds, TextOr, Trim;
    NumberIs(Field(entry, P95Rps), r.p95Rps, 0.0);
    NumberIs(Field(entry, BlockedRate), r.blockedRate, 0.0);
    NumberIs(Field(entry, BurstFactor), r.burstFactor, 1.0);
    AtMostOne(Field(entry, BlockedRate), r.blockedRate);
    Unbounded(Field(entry, P95Rps));
  }

  lemma AtMostOne(v: Option<Json>, r: real)
    ensures InRange(v, 0.0, Some(1.0)) && r == Quotient(v.value) <==> InRange(v, 0.0, None) && r == Quotient(v.value) && r <= 1.0
  {
    hide Quotient;
  }

  lemma Unbounded(v: Option<Json>)
    ensures InRange(v, 0.0, None) ==> v.Some? && v.value.Num?
  {
  }

  /** Which inputs are accepted, and as what: every entry describes its route, and no prefix occurs twice. */
  lemma {:induction false} RoutesExact(input: seq<Json>, n: nat, routes: seq<Route>)
    requires n <= |input|
    ensures Routes(input, n) == Some(routes) <==>
            && |routes| == n && (forall i | 0 <= i < n :: Describes(input[i], routes[i]))
            && forall i, j | 0 <= i < j < n :: routes[i].prefix != routes[j].prefix
  {
    hide ReadRoute, Describes;
    if n > 0 && |routes| == n {
      var before, last := routes[..n - 1], routes[n - 1];
      RoutesExact(input, n - 1, before);
      RouteDescribed(input[n - 1], last);
      assert routes == before + [last];
      if Routes(input, n) == Some(routes) {
        var b := Routes(input, n - 1).value;
        assert b == (b + [last])[..n - 1] == before by { RoutesLength(input, n - 1); }
      }
    } else if |routes| != n && Routes(input, n).Some? {
      RoutesLength(input, n);
    }
  }

  lemma {:induction false} RoutesLength(input: seq<Json>, n: nat)
    requires n <= |input| && Routes(input, n).Some?
    ensures |Routes(input, n).value| == n
  {
    hide ReadRoute;
    if n > 0 { RoutesLength(input, n - 1); }
  }

  /** What `parseArgs` guarantees of the bounds. */
  predicate ValidBounds(b: Bounds) {
    && (b.floor.Some? ==> b.floor.value >= 1) && (b.ceiling.Some? ==> b.ceiling.value >= 1)
    && (b.floor.Some? && b.ceiling.Some? ==> b.floor.value <= b.ceiling.value)
  }

  /** The demand of a route: its rate with headroom and a lift for bursts, and supplements for blocked requests and in general. */
  function Demand(p: Weights, r: Route): real { Terms(p, r.p95Rps, r.burstFactor - 1.0, r.blockedRate) }

  function Terms(p: Weights, rate: real, burstLift: real, blockedRate: real): real {
    rate + p.headroom * rate + burstLift * p.burstWeight * rate + p.blockedWeight * blockedRate + p.bias
  }

  lemma RawIsTerms(p: Weights, rate: real, burstLift: real, blockedRate: real)
    ensures Raw(p, rate, burstLift, blockedRate) == Terms(p, rate, burstLift, blockedRate)
  {
    var lift := burstLift * p.burstWeight;
    assert rate * (1.0 + p.headroom + lift) == rate + p.headroom * rate + lift * rate;
  }

  lemma CeilIs(x: real)
    ensures (Ceil(x) - 1) as real < x <= Ceil(x) as real
  {
  }

  lemma RawIsDemand(p: Weights, r: Route)
    requires r.burstFactor >= 1.0
    ensures RawValue(p, r) == Ceil(Demand(p, r))
  {
    hide Raw, Terms, Ceil;
    RawIsTerms(p, r.p95Rps, r.burstFactor - 1.0, r.blockedRate);
  }

  /** The suggested value is the demand rounded up, moved to the nearer bound when it is outside the bounds or below 1. */
  lemma SuggestedExact(p: Weights, b: Bounds, r: Route)
    requires r.burstFactor >= 1.0 && ValidBounds(b)
    ensures var v, x := Suggest(p, b, r).value, Demand(p, r);
      && v >= 1 && (b.floor.Some? ==> v >= b.floor.value) && (b.ceiling.Some? ==> v <= b.ceiling.value)
      && (v as real < x ==> b.ceiling.Some? && v == b.ceiling.value)
      && ((v - 1) as real >= x ==> v == 1 || (b.floor.Some? && v == b.floor.value))
  {
    hide RawValue, Demand, Ceil;
    RawIsDemand(p, r);
    CeilIs(Demand(p, r));
  }

  /** A busier route is never suggested less. */
  lemma SuggestMonotone(p: Weights, b: Bounds, r: Route, s: Route)
    requires p in {VPS_SMALL, VPS_MEDIUM, DISKLESS}
    requires 0.0 <= r.p95Rps <= s.p95Rps && 1.0 <= r.burstFactor <= s.burstFactor && r.blockedRate <= s.blockedRate
    ensures Suggest(p, b, r).value <= Suggest(p, b, s).value
  {
    hide RawValue, Demand, Ceil;
    RawIsDemand(p, r);
    RawIsDemand(p, s);
    DemandMonotone(p, r, s);
    CeilMonotone(Demand(p, r), Demand(p, s));
    ClampMonotone(RawValue(p, r), RawValue(p, s), b);
  }

  lemma CeilMonotone(x: real, y: real)
    requires x <= y
    ensures Ceil(x) <= Ceil(y)
  {
    CeilIs(x);
    CeilIs(y);
  }

  lemma ClampMonotone(x: int, y: int, b: Bounds)
    requires x <= y
    ensures Clamp(x, b) <= Clamp(y, b)
  {
  }

  lemma Products(a: real, b: real, c: real, d: real)
    requires 0.0 <= a <= c && 0.0 <= b <= d
    ensures 0.0 <= a * b <= c * d
  {
    assert a * b <= c * b <= c * d;
  }

  lemma DemandMonotone(p: Weights, r: Route, s: Route)
    requires p.headroom >= 0.0 && p.burstWeight >= 0.0 && p.blockedWeight >= 0.0
    requires 0.0 <= r.p95Rps <= s.p95Rps && 1.0 <= r.burstFactor <= s.burstFactor && r.blockedRate <= s.blockedRate
    ensures Demand(p, r) <= Demand(p, s)
  {
    Products(p.headroom, r.p95Rps, p.headroom, s.p95Rps);
    Products(r.burstFactor - 1.0, p.burstWeight, s.burstFactor - 1.0, p.burstWeight);
    Products((r.burstFactor - 1.0) * p.burstWeight, r.p95Rps, (s.burstFactor - 1.0) * p.burstWeight, s.p95Rps);
    assert p.blockedWeight * r.blockedRate <= p.blockedWeight * s.blockedRate;
  }

  /** The suggestions are listed by prefix. */
  lemma EntriesAscend(p: Weights, b: Bounds, routes: seq<Route>, le: (string, string) -> bool)
    requires TotalOrder(le)
    ensures var e := Entries(p, b, routes, le); forall i, j | 0 <= i < j < |e| :: le(e[i].prefix, e[j].prefix)
  {
    hide Suggest, Suggestions, Sort;
    ByPrefixRanks(le);
    SortSorts(Suggestions(p, b, routes), ByPrefix(le));
    var e := Entries(p, b, routes, le);
    forall i, j | 0 <= i < j < |e| ensures le(e[i].prefix, e[j].prefix) { assert ByPrefix(le)(e[i], e[j]); }
  }

  lemma ByPrefixRanks(le: (string, string) -> bool)
    requires TotalOrder(le)
    ensures Ranking(ByPrefix(le))
  {
    var ranks := ByPrefix(le);
    forall a, b ensures ranks(a, b) || ranks(b, a) { assert le(a.prefix, b.prefix) || le(b.prefix, a.prefix); }
    forall a, b, c | ranks(a, b) && ranks(b, c) ensures ranks(a, c) { assert le(a.prefix, b.prefix) && le(b.prefix, c.prefix); }
  }

  // ---------------------------------------------------------------- what the reader accepts

  /** A positive safe integer in decimal digits, with white space around it allowed. */
  ghost predicate IsPositive(text: string, v: int) {
    AllDigits(Trim(text)) && 1 <= v <= MAX_SAFE && v == DecimalValue(Trim(text))
  }

  /** The item is a key, an equal sign and a value; the first equal sign counts. */
  ghost predicate Says(item: string, key: string, v: int) {
    exists e :: SaysAt(item, e, key, v)
  }

  ghost predicate SaysAt(item: string, e: int, key: string, v: int) {
    0 < e < |item| && item[e] == '=' && '=' !in item[..e] && key == Trim(item[..e]) && key != "" && IsPositive(item[e + 1..], v)
  }

  ghost predicate SaysSome(item: string) { exists key, v :: Says(item, key, v) }

  lemma {:induction false} IndexIs(s: string, c: char)
    ensures IndexOf(s, c) == -1 ==> c !in s
    ensures IndexOf(s, c) != -1 ==> 0 <= IndexOf(s, c) < |s| && s[IndexOf(s, c)] == c && c !in s[..IndexOf(s, c)]
  {
    if s != "" && s[0] != c {
      IndexIs(s[1..], c);
      assert s == [s[0]] + s[1..];
      var k := IndexOf(s[1..], c);
      if k != -1 { assert s[..k + 1] == [s[0]] + s[1..][..k]; }
    }
  }

  lemma FirstIndex(s: string, c: char, e: nat)
    requires e < |s| && s[e] == c && c !in s[..e]
    ensures IndexOf(s, c) == e
  {
    IndexIs(s, c);
    var k := IndexOf(s, c);
    NotBefore(s, c, e);
    if k != -1 { NotBefore(s, c, k); }
  }

  lemma NotBefore(s: string, c: char, e: nat)
    requires e < |s| && c !in s[..e]
    ensures forall j | 0 <= j < e :: s[j] != c
  {
    forall j | 0 <= j < e ensures s[j] != c { assert s[..e][j] == s[j]; }
  }

  lemma MinusNeverPositive(text: string, v: int)
    ensures IsPositive(text, v) <==> ParseIntStrict(text) == Some(v) && v > 0
  {
    hide Trim, DecimalValue;
    var t := Trim(text);
    if t != "" && t[0] == '-' {
      assert !IsDigit(t[0]);
    }
  }

  lemma SaysIs(item: string, key: string, v: int)
    ensures Says(item, key, v) <==> SaysAt(item, IndexOf(item, '='), key, v)
  {
    hide IsPositive, IndexOf, SaysAt;
    forall e | SaysAt(item, e, key, v) ensures e == IndexOf(item, '=') { SaidAtFirst(item, e, key, v); }
  }

  lemma SaidAtFirst(item: string, e: int, key: string, v: int)
    requires SaysAt(item, e, key, v)
    ensures e == IndexOf(item, '=')
  {
    hide Trim, IsPositive, IndexOf;
    FirstIndex(item, '=', e);
  }

  /** One item: read as a pair, or complained about, without a leading key as malformed and otherwise as invalid. */
  lemma EntryExact(item: string, values: map<string, int>)
    ensures var r := ReadEntry(item, values);
      && (forall key, v | Says(item, key, v) :: r == Parsed(values[key := v]))
      && (!SaysSome(item) ==> r == if '=' !in item || item[0] == '=' then Malformed(item) else InvalidEntry(item))
  {
    hide ReadEntry, Says, SaysAt, IndexOf;
    forall key, v ensures Says(item, key, v) <==> SaysAt(item, IndexOf(item, '='), key, v) { SaysIs(item, key, v); }
    forall key, v | SaysAt(item, IndexOf(item, '='), key, v) ensures ReadEntry(item, values) == Parsed(values[key := v]) { ReadAt(item, values, key, v); }
    if !SaysSome(item) { Unread(item, values); }
  }

  lemma ReadAt(item: string, values: map<string, int>, key: string, v: int)
    requires SaysAt(item, IndexOf(item, '='), key, v)
    ensures ReadEntry(item, values) == Parsed(values[key := v])
  {
    hide Trim, IsPositive, IndexOf, ParseIntStrict;
    MinusNeverPositive(item[IndexOf(item, '=') + 1..], v);
  }

  lemma Unread(item: string, values: map<string, int>)
    requires forall key, v :: !SaysAt(item, IndexOf(item, '='), key, v)
    ensures ReadEntry(item, values) == if '=' !in item || item[0] == '=' then Malformed(item) else InvalidEntry(item)
  {
    hide Trim, IsPositive, IndexOf, ParseIntStrict;
    var e := IndexOf(item, '=');
    IndexIs(item, '=');
    if 0 < e < |item| {
      var value := ParseIntStrict(item[e + 1..]);
      assert item[0] != '=' by { NotBefore(item, '=', e); }
      if value.Some? {
        MinusNeverPositive(item[e + 1..], value.value);
        assert !SaysAt(item, e, Trim(item[..e]), value.value);
      }
    } else if e == 0 {
      assert item[0] == '=';
    }
  }

  /** The value of a key is that of the last item with the key. */
  ghost predicate LastSays(items: seq<string>, n: nat, key: string, v: int)
    requires n <= |items|
  {
    exists i | 0 <= i < n :: Says(items[i], key, v) && forall k, u | i < k < n :: !Says(items[k], key, u)
  }

  ghost predicate IsReadAs(items: seq<string>, n: nat, values: map<string, int>)
    requires n <= |items|
  {
    forall key, v :: key in values && values[key] == v <==> LastSays(items, n, key, v)
  }

  lemma OneMeaning(item: string, key: string, v: int, other: string, u: int)
    requires Says(item, key, v) && Says(item, other, u)
    ensures key == other && v == u
  {
    hide Trim, IndexOf;
    SaysIs(item, key, v);
    SaysIs(item, other, u);
  }

  lemma LastStep(items: seq<string>, n: nat, key: string, v: int, other: string, u: int)
    requires 0 < n <= |items| && Says(items[n - 1], key, v)
    ensures LastSays(items, n, other, u) <==> if other == key then u == v else LastSays(items, n - 1, other, u)
  {
    hide Says;
    var item := items[n - 1];
    forall k, t | Says(item, k, t) ensures k == key && t == v { OneMeaning(item, key, v, k, t); }
    if other != key && LastSays(items, n - 1, other, u) {
      var i :| 0 <= i < n - 1 && Says(items[i], other, u) && forall k, t | i < k < n - 1 :: !Says(items[k], other, t);
      assert forall k, t | i < k < n :: !Says(items[k], other, t);
    }
  }

  lemma {:induction false} ItemsRead(items: seq<string>, n: nat)
    requires n <= |items| && forall i | 0 <= i < n :: SaysSome(items[i])
    ensures ReadEntries(items, n).Parsed? && IsReadAs(items, n, ReadEntries(items, n).values)
  {
    hide Says, ReadEntry, LastSays;
    if n > 0 {
      ItemsRead(items, n - 1);
      var before := ReadEntries(items, n - 1).values;
      var key, v :| Says(items[n - 1], key, v);
      EntryExact(items[n - 1], before);
      forall other, u ensures other in before[key := v] && before[key := v][other] == u <==> LastSays(items, n, other, u) {
        LastStep(items, n, key, v, other, u);
      }
    } else {
      assert forall key, v :: !LastSays(items, 0, key, v) by { NothingSaid(items); }
    }
  }

  lemma NothingSaid(items: seq<string>)
    ensures forall key, v :: !LastSays(items, 0, key, v)
  {
  }

  ghost predicate Given(items: seq<string>, key: string) { exists v :: LastSays(items, |items|, key, v) }

  /** The trimmed, non-empty pieces between the commas. */
  function ItemsOf(raw: string): seq<string> { var parts := Split(raw, ','); Items(parts, |parts|) }

  /** The hosting check is content exactly when the string is not blank, every item says a key and a positive safe integer,
      and `inbox`, `webhook` and `template` are among the keys; otherwise it complains about the first item that says nothing. */
  lemma ComplaintExact(raw: string)
    ensures var items := ItemsOf(raw);
      && (ComplaintAbout(raw) == None <==>
            && NonBlank(raw) && (forall i | 0 <= i < |items| :: SaysSome(items[i]))
            && Given(items, "inbox") && Given(items, "webhook") && Given(items, "template"))
      && (!NonBlank(raw) ==> ComplaintAbout(raw) == Some(Unset))
      && forall i | NonBlank(raw) && 0 <= i < |items| && !SaysSome(items[i]) && (forall k | 0 <= k < i :: SaysSome(items[k])) ::
           ComplaintAbout(raw) == Some(if '=' !in items[i] || items[i][0] == '=' then MalformedEntry(items[i]) else BadEntry(items[i]))
  {
    hide NonBlank, Split, Items, SaysSome, LastSays, ReadEntries;
    if NonBlank(raw) {
      var items := ItemsOf(raw);
      forall i | 0 <= i < |items| && !SaysSome(items[i]) && (forall k | 0 <= k < i :: SaysSome(items[k]))
        ensures ReadEntries(items, |items|) == if '=' !in items[i] || items[i][0] == '=' then Malformed(items[i]) else InvalidEntry(items[i])
      {
        FirstUnread(items, i);
      }
      if forall i | 0 <= i < |items| :: SaysSome(items[i]) {
        ItemsRead(items, |items|);
        KeysPresent(items, ReadEntries(items, |items|).values);
      } else {
        var i := FirstSilent(items);
      }
    }
  }

  lemma FirstSilent(items: seq<string>) returns (i: nat)
    requires exists k | 0 <= k < |items| :: !SaysSome(items[k])
    ensures i < |items| && !SaysSome(items[i]) && forall k | 0 <= k < i :: SaysSome(items[k])
  {
    hide SaysSome;
    i := 0;
    while i < |items| && SaysSome(items[i])
      invariant i <= |items| && forall k | 0 <= k < i :: SaysSome(items[k])
    {
      i := i + 1;
    }
  }

  lemma FirstUnread(items: seq<string>, i: nat)
    requires i < |items| && !SaysSome(items[i]) && forall k | 0 <= k < i :: SaysSome(items[k])
    ensures ReadEntries(items, |items|) == if '=' !in items[i] || items[i][0] == '=' then Malformed(items[i]) else InvalidEntry(items[i])
  {
    hide SaysSome, ReadEntry, LastSays;
    ItemsRead(items, i);
    EntryExact(items[i], ReadEntries(items, i).values);
    StopsReading(items, i + 1, |items|);
  }

  lemma KeysPresent(items: seq<string>, values: map<string, int>)
    requires IsReadAs(items, |items|, values)
    ensures FirstLacking(values, RequiredKeys(), 0).None? <==>
            Given(items, "inbox") && Given(items, "webhook") && Given(items, "template")
  {
    hide LastSays;
    KeysChecked(values);
    forall key ensures key in values <==> Given(items, key) {
      if key in values { assert LastSays(items, |items|, key, values[key]); }
    }
  }

  lemma KeysChecked(values: map<string, int>)
    ensures FirstLacking(values, RequiredKeys(), 0).None? <==> "inbox" in values && "webhook" in values && "template" in values
  {
    var keys := RequiredKeys();
    assert FirstLacking(values, keys, 3).None?;
    assert FirstLacking(values, keys, 2).None? <==> keys[2] in values;
    assert FirstLacking(values, keys, 1).None? <==> keys[1] in values && keys[2] in values;
  }
}
