/** The string operations the scripts share: trimming, blankness, splitting, joining, decimal numbers. */
module Strings {

  datatype Option<+T> = None | Some(value: T)

  /** White space and line terminators, as `trim` and `\s` know them (ECMAScript, section "String.prototype.trim"). */
  predicate IsSpace(c: char) {
    || '\U{9}' <= c <= '\U{D}' || c == ' ' || c == '\U{A0}' || c == '\U{1680}'
    || '\U{2000}' <= c <= '\U{200A}' || c == '\U{2028}' || c == '\U{2029}'
    || c == '\U{202F}' || c == '\U{205F}' || c == '\U{3000}' || c == '\U{FEFF}'
  }

  function TrimStart(s: string): (t: string)
    ensures |t| <= |s| && t == s[|s| - |t|..]
    ensures t != "" ==> !IsSpace(t[0])
    ensures forall i | 0 <= i < |s| - |t| :: IsSpace(s[i])
  {
    if s != "" && IsSpace(s[0]) then TrimStart(s[1..]) else s
  }

  function TrimEnd(s: string): (t: string)
    ensures |t| <= |s| && t == s[..|t|]
    ensures t != "" ==> !IsSpace(t[|t| - 1])
    ensures forall i | |t| <= i < |s| :: IsSpace(s[i])
  {
    if s != "" && IsSpace(s[|s| - 1]) then TrimEnd(s[..|s| - 1]) else s
  }

  /** `s.trim()` */
  function Trim(s: string): (t: string)
    ensures t != "" ==> !IsSpace(t[0]) && !IsSpace(t[|t| - 1])
    ensures t != "" <==> exists i | 0 <= i < |s| :: !IsSpace(s[i])
  {
    var u := TrimStart(s);
    var t := TrimEnd(u);
    assert t != "" ==> t[0] == u[0] && !IsSpace(s[|s| - |u|]);
    assert u != "" ==> t != "";
    t
  }

  /** `isNonEmptyString` on a string value. */
  predicate NonBlank(s: string) { Trim(s) != "" }

  /** Starts with a visible character: a cheap sufficient condition for not being blank. */
  predicate Visible(s: string) { s != "" && !IsSpace(s[0]) }

  lemma VisibleIsNonBlank(s: string)
    requires Visible(s)
    ensures NonBlank(s) && Visible(Trim(s))
  {
    assert !IsSpace(s[0]);
  }

  /** Text without outer white space survives trimming. */
  lemma TrimKeeps(s: string)
    requires s != "" ==> !IsSpace(s[0]) && !IsSpace(s[|s| - 1])
    ensures Trim(s) == s
  {
    hide IsSpace;
  }

  /** Trimming cuts white space off both ends, and nothing else. */
  lemma TrimExact(s: string) returns (i: nat, j: nat)
    ensures i <= j <= |s| && Trim(s) == s[i..j]
    ensures forall k | 0 <= k < i || j <= k < |s| :: IsSpace(s[k])
    ensures i < j ==> !IsSpace(s[i]) && !IsSpace(s[j - 1])
  {
    hide TrimStart, TrimEnd, IsSpace;
    var u := TrimStart(s);
    i := |s| - |u|;
    j := i + |TrimEnd(u)|;
    assert Trim(s) == u[..j - i] == s[i..j];
    forall k | j <= k < |s| ensures IsSpace(s[k]) { assert s[k] == u[k - i]; }
  }

  lemma TrimIdempotent(s: string)
    ensures Trim(Trim(s)) == Trim(s)
    ensures NonBlank(s) ==> NonBlank(Trim(s))
  {
    hide Trim, IsSpace;
    TrimKeeps(Trim(s));
  }

  function LowerChar(c: char): char {
    if 'A' <= c <= 'Z' then c + ('a' - 'A') else c
  }

  /** `toLowerCase`, on the ASCII letters. */
  function Lower(s: string): (t: string)
    ensures |t| == |s| && forall i | 0 <= i < |s| :: t[i] == LowerChar(s[i])
  {
    seq(|s|, i requires 0 <= i < |s| => LowerChar(s[i]))
  }

  /** `s.includes(pattern)` */
  ghost predicate Includes(s: string, pattern: string) {
    exists i :: OccursAt(s, pattern, i)
  }

  predicate OccursAt(s: string, pattern: string, i: int) {
    0 <= i <= |s| - |pattern| && s[i..i + |pattern|] == pattern
  }

  function Join(parts: seq<string>, separator: string): string {
    if parts == [] then "" else if |parts| == 1 then parts[0] else parts[0] + separator + Join(parts[1..], separator)
  }

  /** `s.split(c)` for a one-character separator. */
  function Split(s: string, c: char): (parts: seq<string>)
    ensures parts != []
  {
    if s == "" then [""]
    else
      var rest := Split(s[1..], c);
      if s[0] == c then [""] + rest else [[s[0]] + rest[0]] + rest[1..]
  }

  lemma {:induction false} SplitPrefix(p: string, s: string, c: char)
    requires c !in p
    ensures Split(p + [c] + s, c) == [p] + Split(s, c)
    ensures Split(p, c) == [p]
  {
    if p == "" {
      assert p + [c] + s == [c] + s;
    } else {
      SplitPrefix(p[1..], s, c);
      assert (p + [c] + s)[1..] == p[1..] + [c] + s;
      assert p == [p[0]] + p[1..];
    }
  }

  /** Splitting undoes joining when no part contains the separator. */
  lemma {:induction false} SplitJoin(parts: seq<string>, c: char)
    requires parts != [] && forall p | p in parts :: c !in p
    ensures Split(Join(parts, [c]), c) == parts
  {
    hide Split;
    SplitPrefix(parts[0], Join(parts[1..], [c]), c);
    if |parts| > 1 {
      assert parts[1] in parts;
      SplitJoin(parts[1..], c);
      assert parts == [parts[0]] + parts[1..];
    }
  }

  predicate IsDigit(c: char) { '0' <= c <= '9' }

  function DigitChar(d: nat): char
    requires d < 10
  {
    '0' + (d as char)
  }

  /** Decimal text of a natural number. */
  function Decimal(n: nat): (t: string)
    ensures t != "" && forall i | 0 <= i < |t| :: IsDigit(t[i])
  {
    if n < 10 then [DigitChar(n)] else Decimal(n / 10) + [DigitChar(n % 10)]
  }

  function DecimalValue(t: string): nat
    requires forall i | 0 <= i < |t| :: IsDigit(t[i])
  {
    if t == "" then 0 else assert IsDigit(t[|t| - 1]); 10 * DecimalValue(t[..|t| - 1]) + (t[|t| - 1] as int - '0' as int)
  }

  lemma {:induction false} DecimalRoundTrip(n: nat)
    ensures DecimalValue(Decimal(n)) == n
  {
    if n >= 10 {
      DecimalRoundTrip(n / 10);
      var t := Decimal(n);
      assert t[..|t| - 1] == Decimal(n / 10);
    } else {
      assert Decimal(n)[..0] == "";
    }
  }
}
