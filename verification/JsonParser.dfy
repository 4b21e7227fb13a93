/** A reader for the grammar of RFC 8259 (sections 4 to 7, without insignificant white space), and the text
    that every piece of JSON data has in canonical form. Reading that text gives the data back. */
module JsonParser {
  import opened Sorting
  import opened CanonicalJson

  datatype Parsed<+T> = Fail | Ok(value: T, rest: Units)

  function HexDigit(u: Unit): int {
    if 0x30 <= u <= 0x39 then u - 0x30 else if 0x61 <= u <= 0x66 then u - 0x57 else if 0x41 <= u <= 0x46 then u - 0x37 else -1
  }

  function ParseHex(t: Units): (r: Parsed<Unit>)
    ensures r.Ok? ==> |r.rest| < |t|
  {
    if |t| < 4 then Fail
    else
      var a, b, c, d := HexDigit(t[0]), HexDigit(t[1]), HexDigit(t[2]), HexDigit(t[3]);
      if a < 0 || b < 0 || c < 0 || d < 0 then Fail else Ok(0x1000 * a + 0x100 * b + 0x10 * c + d, t[4..])
  }

  /** The character after a backslash. */
  function ParseEscape(t: Units): (r: Parsed<Unit>)
    ensures r.Ok? ==> |r.rest| < |t|
  {
    if t == [] then Fail
    else if t[0] == QUOTE || t[0] == BACKSLASH || t[0] == 0x2F then Ok(t[0], t[1..])
    else if t[0] == 0x62 then Ok(0x08, t[1..])
    else if t[0] == 0x66 then Ok(0x0C, t[1..])
    else if t[0] == 0x6E then Ok(0x0A, t[1..])
    else if t[0] == 0x72 then Ok(0x0D, t[1..])
    else if t[0] == 0x74 then Ok(0x09, t[1..])
    else if t[0] == 0x75 then ParseHex(t[1..])
    else Fail
  }

  /** The characters of a string up to its closing quotation mark. */
  function ParseChars(t: Units): (r: Parsed<Units>)
    ensures r.Ok? ==> |r.rest| < |t|
    decreases |t|
  {
    if t == [] then Fail
    else if t[0] == QUOTE then Ok([], t[1..])
    else if t[0] == BACKSLASH then
      match ParseEscape(t[1..])
      case Fail => Fail
      case Ok(u, rest) => Prepend(u, ParseChars(rest))
    else if t[0] < 0x20 then Fail
    else Prepend(t[0], ParseChars(t[1..]))
  }

  function Prepend(u: Unit, r: Parsed<Units>): Parsed<Units> {
    match r
    case Fail => Fail
    case Ok(s, rest) => Ok([u] + s, rest)
  }

  function NumberSpan(t: Units): (n: nat)
    ensures n <= |t|
  {
    if t != [] && IsNumberUnit(t[0]) then 1 + NumberSpan(t[1..]) else 0
  }

  function ParseValue(t: Units): (r: Parsed<Data>)
    ensures r.Ok? ==> |r.rest| < |t|
    decreases |t|, 1
  {
    if t == [] then Fail
    else if t[0] == QUOTE then
      match ParseChars(t[1..])
      case Fail => Fail
      case Ok(s, rest) => Ok(DStr(s), rest)
    else if t[0] == LBRACKET then
      if |t| > 1 && t[1] == RBRACKET then Ok(DArr([]), t[2..])
      else
        match ParseElements(t[1..])
        case Fail => Fail
        case Ok(es, rest) => Ok(DArr(es), rest)
    else if t[0] == LBRACE then
      if |t| > 1 && t[1] == RBRACE then Ok(DObj(map[]), t[2..])
      else
        match ParseMembers(t[1..])
        case Fail => Fail
        case Ok(m, rest) => Ok(DObj(m), rest)
    else if NULL <= t then Ok(DNull, t[4..])
    else if TRUE <= t then Ok(DBool(true), t[4..])
    else if FALSE <= t then Ok(DBool(false), t[5..])
    else
      var token := t[..NumberSpan(t)];
      if IsNumberToken(token) then Ok(DNumber(token), t[NumberSpan(t)..]) else Fail
  }

  /** One or more elements and the closing bracket. */
  function ParseElements(t: Units): (r: Parsed<seq<Data>>)
    ensures r.Ok? ==> |r.rest| < |t|
    decreases |t|, 2
  {
    match ParseValue(t)
    case Fail => Fail
    case Ok(d, rest) =>
      if rest != [] && rest[0] == RBRACKET then Ok([d], rest[1..])
      else if rest != [] && rest[0] == COMMA then
        match ParseElements(rest[1..])
        case Fail => Fail
        case Ok(es, rest') => Ok([d] + es, rest')
      else Fail
  }

  /** One or more members and the closing brace; of two members with one name the later one counts. */
  function ParseMembers(t: Units): (r: Parsed<map<Units, Data>>)
    ensures r.Ok? ==> |r.rest| < |t|
    decreases |t|, 2
  {
    if t == [] || t[0] != QUOTE then Fail
    else
      match ParseChars(t[1..])
      case Fail => Fail
      case Ok(key, rest) =>
        if rest == [] || rest[0] != COLON then Fail
        else
          match ParseValue(rest[1..])
          case Fail => Fail
          case Ok(d, rest) =>
            if rest != [] && rest[0] == RBRACE then Ok(map[key := d], rest[1..])
            else if rest != [] && rest[0] == COMMA then
              match ParseMembers(rest[1..])
              case Fail => Fail
              case Ok(m, rest') => Ok(map[key := d] + m, rest')
            else Fail
  }

  /** The data a whole text denotes. */
  function ParseDocument(t: Units): Parsed<Data> {
    match ParseValue(t)
    case Fail => Fail
    case Ok(d, rest) => if rest == [] then Ok(d, []) else Fail
  }

  // ---------------------------------------------------------------- the canonical text of data

  ghost function SomeOrder(s: set<Units>): (r: seq<Units>)
    ensures NoDuplicates(r) && forall k :: k in r <==> k in s
  {
    if s == {} then [] else
    var k :| k in s;
    [k] + SomeOrder(s - {k})
  }

  /** The names of an object in code-unit order. */
  ghost function InOrder(s: set<Units>): seq<Units> { Sort(SomeOrder(s), ByUnits()) }

  ghost function Render(d: Data): Units
    decreases d
  {
    match d
    case DNull => NULL
    case DBool(b) => if b then TRUE else FALSE
    case DNumber(t) => t
    case DStr(s) => Quote(s)
    case DArr(es) => [LBRACKET] + JoinElements(RenderAll(es)) + [RBRACKET]
    case DObj(m) =>
      var texts := map k | k in m :: Render(m[k]);
      InOrderMembers(m.Keys);
      [LBRACE] + JoinMembers(OwnKeys(InOrder(m.Keys)), texts) + [RBRACE]
  }

  ghost function RenderAll(es: seq<Data>): (r: seq<Units>)
    ensures |r| == |es|
    decreases es
  {
    if es == [] then [] else [Render(es[0])] + RenderAll(es[1..])
  }

  lemma InOrderMembers(s: set<Units>)
    ensures NoDuplicates(OwnKeys(InOrder(s))) && forall k :: k in OwnKeys(InOrder(s)) <==> k in s
    ensures NoDuplicates(InOrder(s)) && forall k :: k in InOrder(s) <==> k in s
  {
    SortPermutes(SomeOrder(s), ByUnits());
    NoDuplicatesMultiset(SomeOrder(s));
    NoDuplicatesMultiset(InOrder(s));
    OwnKeysMembers(InOrder(s));
    forall k ensures k in InOrder(s) <==> k in s {
      assert k in multiset(InOrder(s)) <==> k in multiset(SomeOrder(s));
    }
  }

  // ---------------------------------------------------------------- reading it back

  lemma HexDigitOf(d: int)
    requires 0 <= d < 16
    ensures HexDigit(Hex(d)) == d
  {
  }

  lemma Nibbles(u: int)
    requires 0 <= u < 0x1_0000
    ensures 0 <= u / 0x1000 < 16
    ensures u == 0x1000 * (u / 0x1000) + 0x100 * (u / 0x100 % 16) + 0x10 * (u / 0x10 % 16) + u % 16
  {
    assert u / 0x10 == 16 * (u / 0x100) + u / 0x10 % 16;
    assert u / 0x100 == 16 * (u / 0x1000) + u / 0x100 % 16;
  }

  lemma ParseNibbles(a: int, b: int, c: int, d: int, rest: Units)
    requires 0 <= a < 16 && 0 <= b < 16 && 0 <= c < 16 && 0 <= d < 16
    ensures ParseHex([Hex(a), Hex(b), Hex(c), Hex(d)] + rest) == Ok(0x1000 * a + 0x100 * b + 0x10 * c + d, rest)
  {
    hide Hex, HexDigit;
    HexDigitOf(a);
    HexDigitOf(b);
    HexDigitOf(c);
    HexDigitOf(d);
    var t := [Hex(a), Hex(b), Hex(c), Hex(d)] + rest;
    assert t[4..] == rest;
  }

  lemma HexRoundTrip(u: Unit, rest: Units)
    ensures ParseEscape(UnicodeEscape(u)[1..] + rest) == Ok(u, rest)
  {
    hide Hex, ParseHex;
    Nibbles(u);
    ParseNibbles(u / 0x1000, u / 0x100 % 16, u / 0x10 % 16, u % 16, rest);
    var t := UnicodeEscape(u)[1..] + rest;
    assert t[0] == 0x75 && t[1..] == [Hex(u / 0x1000), Hex(u / 0x100 % 16), Hex(u / 0x10 % 16), Hex(u % 16)] + rest;
  }

  lemma ParseEscapeSequence(e: Units, u: Unit, rest: Units)
    requires |e| > 1 && e[0] == BACKSLASH && ParseEscape(e[1..] + rest) == Ok(u, rest)
    ensures ParseChars(e + rest) == Prepend(u, ParseChars(rest))
  {
    hide ParseEscape;
    assert (e + rest)[1..] == e[1..] + rest;
  }

  lemma ParseUnit(u: Unit, rest: Units)
    ensures ParseChars(EscapeUnit(u) + rest) == Prepend(u, ParseChars(rest))
  {
    hide ParseChars, UnicodeEscape, ParseHex;
    var e := EscapeUnit(u);
    EscapeLength(u);
    if |e| == 1 {
      ParsePlain(u, rest);
    } else if |e| == 2 {
      assert e[1..] + rest == [e[1]] + rest && ([e[1]] + rest)[1..] == rest;
      ParseEscapeSequence(e, u, rest);
    } else {
      HexRoundTrip(u, rest);
      ParseEscapeSequence(e, u, rest);
    }
  }

  lemma EscapeLength(u: Unit)
    ensures |UnicodeEscape(u)| == 6 && UnicodeEscape(u)[0] == BACKSLASH
  {
  }

  lemma ParsePlain(u: Unit, rest: Units)
    requires u >= 0x20 && u != QUOTE && u != BACKSLASH
    ensures ParseChars([u] + rest) == Prepend(u, ParseChars(rest))
  {
    assert ([u] + rest)[1..] == rest;
  }

  lemma ParsePair(a: Unit, b: Unit, rest: Units)
    requires IsLead(a) && IsTrail(b)
    ensures ParseChars([a, b] + rest) == Prepend(a, Prepend(b, ParseChars(rest)))
  {
    hide ParseChars;
    ParsePlain(b, rest);
    ParsePlain(a, [b] + rest);
    assert [a, b] + rest == [a] + ([b] + rest);
  }

  lemma EscapedEnd(rest: Units)
    ensures ParseChars(Escape([]) + ([QUOTE] + rest)) == Ok([], rest)
  {
    var end := [QUOTE] + rest;
    assert end[1..] == rest;
    assert Escape([]) + end == end;
  }

  lemma EscapedPair(s: Units, end: Units, rest: Units)
    requires |s| > 1 && IsLead(s[0]) && IsTrail(s[1])
    requires ParseChars(Escape(s[2..]) + end) == Ok(s[2..], rest)
    ensures ParseChars(Escape(s) + end) == Ok(s, rest)
  {
    hide ParseChars, EscapeUnit;
    var tail := Escape(s[2..]);
    ParsePair(s[0], s[1], tail + end);
    assert s[..2] == [s[0], s[1]];
    assert Escape(s) + end == [s[0], s[1]] + (tail + end);
    assert s == [s[0]] + ([s[1]] + s[2..]);
  }

  lemma EscapeStep(s: Units)
    requires |s| > 0 && !(|s| > 1 && IsLead(s[0]) && IsTrail(s[1]))
    ensures Escape(s) == EscapeUnit(s[0]) + Escape(s[1..])
  {
    hide EscapeUnit;
  }

  lemma EscapedUnit(s: Units, end: Units, rest: Units)
    requires |s| > 0 && !(|s| > 1 && IsLead(s[0]) && IsTrail(s[1]))
    requires ParseChars(Escape(s[1..]) + end) == Ok(s[1..], rest)
    ensures ParseChars(Escape(s) + end) == Ok(s, rest)
  {
    hide EscapeUnit, ParseChars, Escape;
    var tail := Escape(s[1..]);
    EscapeStep(s);
    ParseUnit(s[0], tail + end);
    assert Escape(s) + end == EscapeUnit(s[0]) + (tail + end);
    assert s == [s[0]] + s[1..];
  }

  lemma {:induction false} ParseEscaped(s: Units, rest: Units)
    ensures ParseChars(Escape(s) + ([QUOTE] + rest)) == Ok(s, rest)
    decreases |s|
  {
    if s == [] {
      EscapedEnd(rest);
    } else if |s| > 1 && IsLead(s[0]) && IsTrail(s[1]) {
      ParseEscaped(s[2..], rest);
      EscapedPair(s, [QUOTE] + rest, rest);
    } else {
      ParseEscaped(s[1..], rest);
      EscapedUnit(s, [QUOTE] + rest, rest);
    }
  }
  /** The next unit cannot continue a number. */
  predicate Delimited(rest: Units) { rest == [] || !IsNumberUnit(rest[0]) }

  lemma ExponentUnits(t: Units)
    requires IsExponent(t)
    ensures forall i | 0 <= i < |t| :: IsNumberUnit(t[i])
  {
    if t != [] {
      var k := if |t| > 1 && t[1] in {0x2B, MINUS} then 2 else 1;
      forall i | k <= i < |t| ensures IsDigitUnit(t[i]) { assert t[i] == t[k..][i - k]; }
    }
  }

  lemma FractionUnits(t: Units)
    requires IsFraction(t)
    ensures forall i | 0 <= i < |t| :: IsNumberUnit(t[i])
  {
    if t != [] && t[0] == DOT {
      var k := 1 + Digits(t[1..]);
      ExponentUnits(t[k..]);
      forall i | 0 <= i < |t| ensures IsNumberUnit(t[i]) {
        if i >= k { assert t[i] == t[k..][i - k]; } else if i >= 1 { assert t[i] == t[1..][i - 1]; }
      }
    } else {
      ExponentUnits(t);
    }
  }

  lemma NumberUnits(t: Units)
    requires IsNumberToken(t)
    ensures t != [] && (IsDigitUnit(t[0]) || t[0] == MINUS) && forall i | 0 <= i < |t| :: IsNumberUnit(t[i])
  {
    var j := if t != [] && t[0] == MINUS then 1 else 0;
    var k := j + Digits(t[j..]);
    assert t[j..][Digits(t[j..])..] == t[k..];
    FractionUnits(t[k..]);
    forall i | 0 <= i < |t| ensures IsNumberUnit(t[i]) {
      if i >= k { assert t[i] == t[k..][i - k]; } else if i >= j { assert t[i] == t[j..][i - j]; }
    }
    assert t[j] == t[j..][0];
  }

  lemma {:induction false} SpanOf(t: Units, rest: Units)
    requires Delimited(rest) && forall i | 0 <= i < |t| :: IsNumberUnit(t[i])
    ensures NumberSpan(t + rest) == |t|
  {
    if t == [] {
      assert t + rest == rest;
    } else {
      SpanOf(t[1..], rest);
      assert (t + rest)[1..] == t[1..] + rest;
    }
  }

  lemma RenderHead(d: Data)
    ensures Render(d) != [] && Render(d)[0] != RBRACKET
  {
    if d.DNumber? { NumberUnits(d.token); }
  }

  lemma ParseNumber(token: NumberToken, rest: Units)
    requires Delimited(rest)
    ensures ParseValue(token + rest) == Ok(DNumber(token), rest)
  {
    hide IsNumberToken, NumberSpan, IsNumberUnit;
    NumberUnits(token);
    SpanOf(token, rest);
    var t := token + rest;
    assert t[0] == token[0];
    assert IsDigitUnit(t[0]) || t[0] == MINUS;
    assert t[..|token|] == token && t[|token|..] == rest;
  }

  lemma ParseNull(rest: Units)
    ensures ParseValue(NULL + rest) == Ok(DNull, rest)
  {
    var t := NULL + rest;
    assert t[0] == NULL[0] && t[4..] == rest && t[..4] == NULL;
  }

  lemma ParseBool(b: bool, rest: Units)
    ensures ParseValue((if b then TRUE else FALSE) + rest) == Ok(DBool(b), rest)
  {
    var w := if b then TRUE else FALSE;
    var t := w + rest;
    assert t[0] == w[0] && t[|w|..] == rest && t[..|w|] == w;
  }

  lemma ParseString(s: Units, rest: Units)
    ensures ParseValue(Quote(s) + rest) == Ok(DStr(s), rest)
  {
    hide ParseChars, Escape;
    ParseEscaped(s, rest);
    var t := Quote(s) + rest;
    assert t[0] == QUOTE && t[1..] == Escape(s) + ([QUOTE] + rest);
  }

  lemma ParseArray(body: Units, es: seq<Data>, rest: Units)
    requires body != [] && body[0] != RBRACKET && ParseElements(body + ([RBRACKET] + rest)) == Ok(es, rest)
    ensures ParseValue([LBRACKET] + body + [RBRACKET] + rest) == Ok(DArr(es), rest)
  {
    hide ParseElements;
    var t := [LBRACKET] + body + [RBRACKET] + rest;
    assert t[0] == LBRACKET && t[1] == body[0] && t[1..] == body + ([RBRACKET] + rest);
  }

  lemma ParseObject(body: Units, m: map<Units, Data>, rest: Units)
    requires body != [] && body[0] != RBRACE && ParseMembers(body + ([RBRACE] + rest)) == Ok(m, rest)
    ensures ParseValue([LBRACE] + body + [RBRACE] + rest) == Ok(DObj(m), rest)
  {
    hide ParseMembers;
    var t := [LBRACE] + body + [RBRACE] + rest;
    assert t[0] == LBRACE && t[1] == body[0] && t[1..] == body + ([RBRACE] + rest);
  }

  lemma ParseLastElement(text: Units, d: Data, rest: Units)
    requires ParseValue(text + ([RBRACKET] + rest)) == Ok(d, [RBRACKET] + rest)
    ensures ParseElements(text + ([RBRACKET] + rest)) == Ok([d], rest)
  {
    hide ParseValue;
    assert ([RBRACKET] + rest)[1..] == rest;
  }

  lemma ParseNextElement(text: Units, d: Data, tail: Units, es: seq<Data>, rest: Units)
    requires ParseValue(text + ([COMMA] + tail)) == Ok(d, [COMMA] + tail) && ParseElements(tail) == Ok(es, rest)
    ensures ParseElements(text + ([COMMA] + tail)) == Ok([d] + es, rest)
  {
    hide ParseValue;
    assert ([COMMA] + tail)[1..] == tail;
  }

  lemma QuotedHead(escaped: Units, text: Units, after: Units)
    ensures var t := [QUOTE] + escaped + [QUOTE] + [COLON] + text + after;
      t[0] == QUOTE && t[1..] == escaped + ([QUOTE] + ([COLON] + (text + after)))
    ensures ([COLON] + (text + after))[1..] == text + after
  {
  }

  lemma ParseMember(key: Units, text: Units, d: Data, after: Units)
    requires ParseValue(text + after) == Ok(d, after)
    ensures var t := Quote(key) + [COLON] + text + after;
      t[0] == QUOTE && ParseChars(t[1..]) == Ok(key, [COLON] + (text + after)) && ([COLON] + (text + after))[1..] == text + after
  {
    hide ParseChars, Escape, ParseValue;
    ParseEscaped(key, [COLON] + (text + after));
    QuotedHead(Escape(key), text, after);
  }

  lemma ParseLastMember(key: Units, text: Units, d: Data, rest: Units)
    requires ParseValue(text + ([RBRACE] + rest)) == Ok(d, [RBRACE] + rest)
    ensures ParseMembers(Quote(key) + [COLON] + text + ([RBRACE] + rest)) == Ok(map[key := d], rest)
  {
    hide ParseChars, Quote, ParseValue;
    ParseMember(key, text, d, [RBRACE] + rest);
    assert ([RBRACE] + rest)[1..] == rest;
  }

  lemma ParseNextMember(key: Units, text: Units, d: Data, tail: Units, m: map<Units, Data>, rest: Units)
    requires ParseValue(text + ([COMMA] + tail)) == Ok(d, [COMMA] + tail) && ParseMembers(tail) == Ok(m, rest)
    ensures ParseMembers(Quote(key) + [COLON] + text + ([COMMA] + tail)) == Ok(map[key := d] + m, rest)
  {
    hide ParseChars, Quote, ParseValue;
    ParseMember(key, text, d, [COMMA] + tail);
    assert ([COMMA] + tail)[1..] == tail;
  }

  // ---------------------------------------------------------------- texts that read as data

  /** The text reads as the data, whatever delimited text follows. */
  ghost predicate Reads(text: Units, d: Data) {
    && text != [] && text[0] != RBRACKET
    && forall rest | Delimited(rest) :: ParseValue(text + rest) == Ok(d, rest)
  }

  lemma ReadsBefore(text: Units, d: Data, mark: Unit, tail: Units)
    requires Reads(text, d) && mark in {COMMA, RBRACKET, RBRACE}
    ensures ParseValue(text + ([mark] + tail)) == Ok(d, [mark] + tail)
  {
    hide ParseValue;
    assert Delimited([mark] + tail);
  }

  lemma {:induction false} ReadElements(texts: seq<Units>, es: seq<Data>, rest: Units)
    requires |texts| == |es| > 0 && forall i | 0 <= i < |es| :: Reads(texts[i], es[i])
    ensures ParseElements(JoinElements(texts) + ([RBRACKET] + rest)) == Ok(es, rest)
  {
    hide ParseValue, ParseElements, Reads, Delimited;
    if |es| == 1 {
      ReadsBefore(texts[0], es[0], RBRACKET, rest);
      ParseLastElement(texts[0], es[0], rest);
      assert [es[0]] == es;
    } else {
      var tail := JoinElements(texts[1..]) + ([RBRACKET] + rest);
      ReadElements(texts[1..], es[1..], rest);
      ReadsBefore(texts[0], es[0], COMMA, tail);
      ParseNextElement(texts[0], es[0], tail, es[1..], rest);
      assert JoinElements(texts) + ([RBRACKET] + rest) == texts[0] + ([COMMA] + tail);
      assert [es[0]] + es[1..] == es;
    }
  }

  lemma SplitEntries(m: map<Units, Data>, keys: seq<Units>)
    requires keys != [] && forall k | k in keys :: k in m
    ensures (map k | k in keys :: m[k]) == map[keys[0] := m[keys[0]]] + (map k | k in keys[1..] :: m[k])
  {
  }

  lemma JoinHead(keys: seq<Units>, texts: map<Units, Units>, end: Units)
    requires keys != [] && forall k | k in keys :: k in texts
    ensures JoinMembers(keys, texts) + end
         == Quote(keys[0]) + [COLON] + texts[keys[0]] + if |keys| == 1 then end else [COMMA] + (JoinMembers(keys[1..], texts) + end)
  {
    hide Quote;
  }

  lemma {:induction false} ReadMembers(m: map<Units, Data>, keys: seq<Units>, texts: map<Units, Units>, rest: Units)
    requires keys != [] && forall k | k in keys :: k in m && k in texts && Reads(texts[k], m[k])
    ensures ParseMembers(JoinMembers(keys, texts) + ([RBRACE] + rest)) == Ok(map k | k in keys :: m[k], rest)
  {
    hide ParseValue, ParseMembers, Quote, Reads, JoinMembers;
    var key := keys[0];
    JoinHead(keys, texts, [RBRACE] + rest);
    if |keys| == 1 {
      ReadsBefore(texts[key], m[key], RBRACE, rest);
      ParseLastMember(key, texts[key], m[key], rest);
      assert (map k | k in keys :: m[k]) == map[key := m[key]];
    } else {
      var tail := JoinMembers(keys[1..], texts) + ([RBRACE] + rest);
      ReadMembers(m, keys[1..], texts, rest);
      ReadsBefore(texts[key], m[key], COMMA, tail);
      ParseNextMember(key, texts[key], m[key], tail, map k | k in keys[1..] :: m[k], rest);
      SplitEntries(m, keys);
    }
  }

  lemma EmptyTexts(rest: Units)
    ensures ParseValue([LBRACKET] + JoinElements([]) + [RBRACKET] + rest) == Ok(DArr([]), rest)
    ensures ParseValue([LBRACE] + JoinMembers([], map[]) + [RBRACE] + rest) == Ok(DObj(map[]), rest)
  {
    assert [LBRACKET] + JoinElements([]) + [RBRACKET] + rest == [LBRACKET, RBRACKET] + rest;
    assert [LBRACE] + JoinMembers([], map[]) + [RBRACE] + rest == [LBRACE, RBRACE] + rest;
    assert ([LBRACKET, RBRACKET] + rest)[2..] == rest && ([LBRACE, RBRACE] + rest)[2..] == rest;
  }

  lemma ReadArray(texts: seq<Units>, es: seq<Data>)
    requires |texts| == |es| && forall i | 0 <= i < |es| :: Reads(texts[i], es[i])
    ensures Reads([LBRACKET] + JoinElements(texts) + [RBRACKET], DArr(es))
  {
    hide ParseValue, ParseElements;
    forall rest | Delimited(rest) ensures ParseValue([LBRACKET] + JoinElements(texts) + [RBRACKET] + rest) == Ok(DArr(es), rest) {
      if es == [] {
        EmptyTexts(rest);
      } else {
        assert Reads(texts[0], es[0]);
        ReadElements(texts, es, rest);
        ParseArray(JoinElements(texts), es, rest);
      }
    }
  }

  lemma ReadObject(keys: seq<Units>, texts: map<Units, Units>, m: map<Units, Data>)
    requires NoDuplicates(keys) && forall k :: k in keys <==> k in m
    requires forall k | k in keys :: k in texts && Reads(texts[k], m[k])
    ensures Reads([LBRACE] + JoinMembers(keys, texts) + [RBRACE], DObj(m))
  {
    hide ParseValue, ParseMembers, Reads, Delimited;
    forall rest | Delimited(rest) ensures ParseValue([LBRACE] + JoinMembers(keys, texts) + [RBRACE] + rest) == Ok(DObj(m), rest) {
      if keys == [] {
        EmptyTexts(rest);
        assert m.Keys == {};
        assert m == map[];
      } else {
        ReadMembers(m, keys, texts, rest);
        assert (map k | k in keys :: m[k]) == m;
        ParseObject(JoinMembers(keys, texts), m, rest);
      }
    }
    ReadsAll([LBRACE] + JoinMembers(keys, texts) + [RBRACE], DObj(m));
  }

  lemma ReadsAll(text: Units, d: Data)
    requires text != [] && text[0] != RBRACKET && forall rest | Delimited(rest) :: ParseValue(text + rest) == Ok(d, rest)
    ensures Reads(text, d)
  {
  }

  lemma ReadScalar(d: Data)
    requires d.DNull? || d.DBool? || d.DNumber? || d.DStr?
    ensures Reads(Render(d), d)
  {
    hide ParseValue, Quote, IsNumberToken;
    RenderHead(d);
    forall rest | Delimited(rest) ensures ParseValue(Render(d) + rest) == Ok(d, rest) {
      match d
      case DNull => ParseNull(rest);
      case DBool(b) => ParseBool(b, rest);
      case DNumber(token) => ParseNumber(token, rest);
      case DStr(s) => ParseString(s, rest);
    }
  }

  lemma {:induction false} RenderAllAt(es: seq<Data>, i: nat)
    requires i < |es|
    ensures RenderAll(es)[i] == Render(es[i])
  {
    hide Render;
    if i > 0 { RenderAllAt(es[1..], i - 1); }
  }

  lemma {:induction false} RenderReads(d: Data)
    ensures Reads(Render(d), d)
    decreases d
  {
    hide Reads, JoinMembers, JoinElements, InOrder, OwnKeys, Quote;
    match d
    case DArr(es) =>
      forall i | 0 <= i < |es| ensures Reads(RenderAll(es)[i], es[i]) {
        RenderReads(es[i]);
        RenderAllAt(es, i);
      }
      ReadArray(RenderAll(es), es);
    case DObj(m) =>
      var texts := map k | k in m :: Render(m[k]);
      InOrderMembers(m.Keys);
      forall k | k in m ensures Reads(texts[k], m[k]) { RenderReads(m[k]); }
      ReadObject(OwnKeys(InOrder(m.Keys)), texts, m);
    case _ => ReadScalar(d);
  }

  /** Reading the canonical text of data gives the data, whatever delimited text follows. */
  lemma ParseRender(d: Data, rest: Units)
    requires Delimited(rest)
    ensures ParseValue(Render(d) + rest) == Ok(d, rest)
  {
    hide ParseValue, Render, Delimited;
    RenderReads(d);
  }
}
