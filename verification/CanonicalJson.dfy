/** The canonical JSON text of the attestation scripts: a recursive normaliser followed by `JSON.stringify`.
    Strings are sequences of UTF-16 code units, as in the language of the scripts. */
module CanonicalJson {
  import opened Strings
  import opened Sorting

  type Unit = u: int | 0 <= u < 0x1_0000
  type Units = seq<Unit>

  // Structural characters
  const QUOTE: Unit := 0x22
  const COMMA: Unit := 0x2C
  const MINUS: Unit := 0x2D
  const DOT: Unit := 0x2E
  const COLON: Unit := 0x3A
  const LBRACKET: Unit := 0x5B
  const BACKSLASH: Unit := 0x5C
  const RBRACKET: Unit := 0x5D
  const LBRACE: Unit := 0x7B
  const RBRACE: Unit := 0x7D
  const TRUE: Units := [0x74, 0x72, 0x75, 0x65]
  const FALSE: Units := [0x66, 0x61, 0x6C, 0x73, 0x65]
  const NULL: Units := [0x6E, 0x75, 0x6C, 0x6C]
  /** `__proto__`: assigning it never creates an own property. */
  const PROTO: Units := [0x5F, 0x5F, 0x70, 0x72, 0x6F, 0x74, 0x6F, 0x5F, 0x5F]

  // ---------------------------------------------------------------- values

  /** Finite numbers are identified with the text `Number.prototype.toString` gives them. */
  type NumberToken = t: Units | IsNumberToken(t) witness [0x30]

  datatype Value =
    | Undefined
    | Null
    | Bool(b: bool)
    | NonFinite
    | Number(token: NumberToken)
    | Str(s: Units)
    | Arr(elems: seq<Value>)
    | Obj(members: seq<Member>)       // own properties in the order of their creation

  datatype Member = Member(key: Units, value: Value)

  /** The JSON data a value stands for: member order, undefined members and an own `__proto__` are not part of it,
      and what `JSON.stringify` prints as `null` is null. */
  datatype Data = DNull | DBool(b: bool) | DNumber(token: NumberToken) | DStr(s: Units) | DArr(elems: seq<Data>)
                | DObj(members: map<Units, Data>)

  // ---------------------------------------------------------------- numbers (RFC 8259, section 6)

  predicate IsDigitUnit(u: Unit) { 0x30 <= u <= 0x39 }
  predicate IsNumberUnit(u: Unit) { IsDigitUnit(u) || u in {0x2B, MINUS, DOT, 0x45, 0x65} }

  function Digits(t: Units): (n: nat)
    ensures n <= |t| && forall i | 0 <= i < n :: IsDigitUnit(t[i])
    ensures n < |t| ==> !IsDigitUnit(t[n])
  {
    if t != [] && IsDigitUnit(t[0]) then 1 + Digits(t[1..]) else 0
  }

  predicate IsExponent(t: Units) {
    t == [] || (t[0] in {0x45, 0x65}
      && var u := if |t| > 1 && t[1] in {0x2B, MINUS} then t[2..] else t[1..]; u != [] && Digits(u) == |u|)
  }

  predicate IsFraction(t: Units) {
    if t != [] && t[0] == DOT then Digits(t[1..]) >= 1 && IsExponent(t[1 + Digits(t[1..])..]) else IsExponent(t)
  }

  predicate IsNumberToken(t: Units) {
    var u := if t != [] && t[0] == MINUS then t[1..] else t;
    Digits(u) >= 1 && (u[0] == 0x30 ==> Digits(u) == 1) && IsFraction(u[Digits(u)..])
  }

  // ---------------------------------------------------------------- keys

  /** Code-unit order, the order of `Object.keys(value).sort()`. */
  predicate UnitsLe(a: Units, b: Units) {
    a == [] || (b != [] && (a[0] < b[0] || (a[0] == b[0] && UnitsLe(a[1..], b[1..]))))
  }

  function ByUnits(): (Units, Units) -> bool { (a: Units, b: Units) => UnitsLe(a, b) }

  function UnitsValue(t: Units): int {
    if t == [] then 0 else 10 * UnitsValue(t[..|t| - 1]) + (t[|t| - 1] as int - 0x30)
  }

  /** Array-index keys: these are enumerated first, in ascending numeric order. */
  predicate IsIndexKey(t: Units) {
    t != [] && Digits(t) == |t| && (t[0] == 0x30 ==> |t| == 1) && UnitsValue(t) <= 0xFFFF_FFFE
  }

  function IndexKeys(): Units -> bool { (t: Units) => IsIndexKey(t) }
  function OtherKeys(): Units -> bool { (t: Units) => !IsIndexKey(t) }
  function Itself(): Units -> Units { (t: Units) => t }
  function ByIndex(): (Units, Units) -> bool { (a: Units, b: Units) => UnitsValue(a) <= UnitsValue(b) }

  /** The order in which own properties created in the order `keys` are enumerated. */
  function OwnKeys(keys: seq<Units>): seq<Units> {
    Sort(FilterMap(keys, IndexKeys(), Itself()), ByIndex()) + FilterMap(keys, OtherKeys(), Itself())
  }

  function Keys(ms: seq<Member>): seq<Units> { seq(|ms|, i requires 0 <= i < |ms| => ms[i].key) }

  function Get(ms: seq<Member>, key: Units): Value {
    if ms == [] then Undefined else if ms[0].key == key then ms[0].value else Get(ms[1..], key)
  }

  /** An object has at most one own property per key. */
  ghost predicate Valid(v: Value)
    decreases v
  {
    match v
    case Arr(es) => AllValid(es)
    case Obj(ms) => NoDuplicates(Keys(ms)) && MembersValid(ms)
    case _ => true
  }

  ghost predicate AllValid(es: seq<Value>)
    decreases es
  {
    es == [] || (Valid(es[0]) && AllValid(es[1..]))
  }

  ghost predicate MemberValid(m: Member)
    decreases m
  {
    Valid(m.value)
  }

  ghost predicate MembersValid(ms: seq<Member>)
    decreases ms
  {
    ms == [] || (MemberValid(ms[0]) && MembersValid(ms[1..]))
  }

  // ---------------------------------------------------------------- canonicalize

  /** The keys that end up as own properties of the normalised object. */
  function Kept(ms: seq<Member>): Units -> bool { (k: Units) => !Get(ms, k).Undefined? && k != PROTO }

  function KeptKeys(keys: seq<Units>, ms: seq<Member>): seq<Units> {
    FilterMap(keys, Kept(ms), Itself())
  }

  function Select(keys: seq<Units>, ms: seq<Member>): seq<Member> {
    seq(|keys|, i requires 0 <= i < |keys| => Member(keys[i], Get(ms, keys[i])))
  }

  function Canonicalize(v: Value): Value
    decreases v
  {
    match v
    case Arr(es) => Arr(CanonicalizeAll(es))
    case Obj(ms) => Obj(Select(KeptKeys(Sort(Keys(ms), ByUnits()), ms), CanonicalizeMembers(ms)))
    case _ => v
  }

  function CanonicalizeAll(es: seq<Value>): (r: seq<Value>)
    ensures |r| == |es|
    decreases es
  {
    if es == [] then [] else [Canonicalize(es[0])] + CanonicalizeAll(es[1..])
  }

  function CanonicalizeMember(m: Member): Member
    decreases m
  {
    Member(m.key, Canonicalize(m.value))
  }

  function CanonicalizeMembers(ms: seq<Member>): (r: seq<Member>)
    ensures |r| == |ms|
    decreases ms
  {
    if ms == [] then [] else [CanonicalizeMember(ms[0])] + CanonicalizeMembers(ms[1..])
  }

  // ---------------------------------------------------------------- JSON.stringify

  predicate IsLead(u: Unit) { 0xD800 <= u <= 0xDBFF }
  predicate IsTrail(u: Unit) { 0xDC00 <= u <= 0xDFFF }

  function Hex(d: int): Unit
    requires 0 <= d < 16
  {
    if d < 10 then 0x30 + d else 0x57 + d
  }

  function UnicodeEscape(u: Unit): Units {
    [BACKSLASH, 0x75, Hex(u / 0x1000), Hex(u / 0x100 % 16), Hex(u / 0x10 % 16), Hex(u % 16)]
  }

  function EscapeUnit(u: Unit): Units {
    if u == 0x08 then [BACKSLASH, 0x62]
    else if u == 0x09 then [BACKSLASH, 0x74]
    else if u == 0x0A then [BACKSLASH, 0x6E]
    else if u == 0x0C then [BACKSLASH, 0x66]
    else if u == 0x0D then [BACKSLASH, 0x72]
    else if u == QUOTE then [BACKSLASH, QUOTE]
    else if u == BACKSLASH then [BACKSLASH, BACKSLASH]
    else if u < 0x20 || IsLead(u) || IsTrail(u) then UnicodeEscape(u)
    else [u]
  }

  /** A surrogate pair is printed as it is, a lone surrogate is escaped. */
  function Escape(s: Units): Units {
    if s == [] then []
    else if |s| > 1 && IsLead(s[0]) && IsTrail(s[1]) then s[..2] + Escape(s[2..])
    else EscapeUnit(s[0]) + Escape(s[1..])
  }

  function Quote(s: Units): Units { [QUOTE] + Escape(s) + [QUOTE] }

  function JoinElements(texts: seq<Units>): Units {
    if texts == [] then [] else if |texts| == 1 then texts[0] else texts[0] + [COMMA] + JoinElements(texts[1..])
  }

  function JoinMembers(keys: seq<Units>, texts: map<Units, Units>): Units
    requires forall k | k in keys :: k in texts
  {
    if keys == [] then []
    else
      var member := Quote(keys[0]) + [COLON] + texts[keys[0]];
      if |keys| == 1 then member else member + [COMMA] + JoinMembers(keys[1..], texts)
  }

  function Defined(ms: seq<Member>): Units -> bool { (k: Units) => !Get(ms, k).Undefined? }

  /** The text of a value inside an array or object; `undefined` reads `null` inside an array. */
  function Print(v: Value): Units
    decreases v
  {
    match v
    case Undefined => NULL
    case Null => NULL
    case Bool(b) => if b then TRUE else FALSE
    case NonFinite => NULL
    case Number(t) => t
    case Str(s) => Quote(s)
    case Arr(es) => [LBRACKET] + JoinElements(PrintAll(es)) + [RBRACKET]
    case Obj(ms) =>
      var keys, texts := OwnKeys(FilterMap(Keys(ms), Defined(ms), Itself())), Printed(ms);
      OwnKeysKept(ms);
      [LBRACE] + JoinMembers(keys, texts) + [RBRACE]
  }

  function PrintAll(es: seq<Value>): (r: seq<Units>)
    ensures |r| == |es|
    decreases es
  {
    if es == [] then [] else [Print(es[0])] + PrintAll(es[1..])
  }

  function PrintMember(m: Member): Units
    decreases m
  {
    Print(m.value)
  }

  function Printed(ms: seq<Member>): (r: map<Units, Units>)
    ensures forall k :: k in r <==> !Get(ms, k).Undefined?
    decreases ms
  {
    if ms == [] then map[]
    else if ms[0].value.Undefined? then Printed(ms[1..]) - {ms[0].key}
    else Printed(ms[1..])[ms[0].key := PrintMember(ms[0])]
  }

  /** `JSON.stringify(value)` */
  function Stringify(v: Value): Option<Units> { if v.Undefined? then None else Some(Print(v)) }

  function CanonicalText(v: Value): Option<Units> { Stringify(Canonicalize(v)) }

  lemma {:induction false} FilterMembers(keys: seq<Units>, keep: Units -> bool)
    ensures forall k :: k in FilterMap(keys, keep, Itself()) <==> k in keys && keep(k)
  {
    if keys != [] { FilterMembers(keys[1..], keep); }
  }

  lemma {:induction false} FilterNoDuplicates(keys: seq<Units>, keep: Units -> bool)
    requires NoDuplicates(keys)
    ensures NoDuplicates(FilterMap(keys, keep, Itself()))
  {
    if keys != [] {
      FilterNoDuplicates(keys[1..], keep);
      FilterMembers(keys[1..], keep);
      assert FilterMap(keys, keep, Itself()) == One(keys[0], keep, Itself()) + FilterMap(keys[1..], keep, Itself());
    }
  }

  lemma {:induction false} FilterSplits(keys: seq<Units>)
    ensures multiset(FilterMap(keys, IndexKeys(), Itself()) + FilterMap(keys, OtherKeys(), Itself())) == multiset(keys)
  {
    hide IsIndexKey;
    if keys != [] {
      FilterSplits(keys[1..]);
      assert keys == [keys[0]] + keys[1..];
    }
  }

  /** Enumeration only rearranges the keys. */
  lemma OwnKeysPermute(keys: seq<Units>)
    ensures multiset(OwnKeys(keys)) == multiset(keys)
  {
    hide FilterMap, Sort;
    FilterSplits(keys);
    SortPermutes(FilterMap(keys, IndexKeys(), Itself()), ByIndex());
  }

  lemma OwnKeysMembers(keys: seq<Units>)
    ensures forall k :: k in OwnKeys(keys) <==> k in keys
    ensures NoDuplicates(keys) ==> NoDuplicates(OwnKeys(keys))
  {
    OwnKeysPermute(keys);
    NoDuplicatesMultiset(keys);
    NoDuplicatesMultiset(OwnKeys(keys));
    forall k ensures k in OwnKeys(keys) <==> k in keys {
      assert k in multiset(OwnKeys(keys)) <==> k in multiset(keys);
    }
  }

  lemma OwnKeysKept(ms: seq<Member>)
    ensures forall k | k in OwnKeys(FilterMap(Keys(ms), Defined(ms), Itself())) :: !Get(ms, k).Undefined?
  {
    OwnKeysMembers(FilterMap(Keys(ms), Defined(ms), Itself()));
    FilterMembers(Keys(ms), Defined(ms));
  }
}
