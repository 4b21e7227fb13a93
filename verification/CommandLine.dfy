/** Displaying the command of a step, and reading the display back. */
module CommandLine {
  import opened Strings

  // ---------------------------------------------------------------- quoting

  /** Characters a tokeniser does not take literally outside quotes. */
  predicate IsSpecial(c: char) { IsSpace(c) || c == '"' || c == '\\' }

  predicate Plain(s: string) { forall i | 0 <= i < |s| :: !IsSpecial(s[i]) }

  predicate IsLineEnd(c: char) { c == '\n' || c == '\r' || c == '\U{2028}' || c == '\U{2029}' }

  /** `/^<.*>$/` */
  predicate IsPlaceholder(s: string) {
    |s| >= 2 && s[0] == '<' && s[|s| - 1] == '>' && forall i | 0 < i < |s| - 1 :: !IsLineEnd(s[i])
  }

  predicate IsSafeChar(c: char) {
    'A' <= c <= 'Z' || 'a' <= c <= 'z' || '0' <= c <= '9'
    || c == '.' || c == '_' || c == ':' || c == '@' || c == '/' || c == '+' || c == '=' || c == ',' || c == '-'
  }

  predicate IsSafe(s: string) { s != "" && forall i | 0 <= i < |s| :: IsSafeChar(s[i]) }

  /** A backslash before every backslash and quotation mark. */
  function Escaped(s: string): string {
    if s == "" then "" else (if s[0] == '"' || s[0] == '\\' then ['\\', s[0]] else [s[0]]) + Escaped(s[1..])
  }

  function QuoteArg(s: string): string {
    if s == "" then "\"\"" else if IsPlaceholder(s) || IsSafe(s) then s else "\"" + Escaped(s) + "\""
  }

  function Quoted(args: seq<string>): (r: seq<string>)
    ensures |r| == |args|
  {
    seq(|args|, i requires 0 <= i < |args| => QuoteArg(args[i]))
  }

  function FormatCommand(command: string, args: seq<string>): string { Join([command] + Quoted(args), " ") }

  // ---------------------------------------------------------------- a tokeniser

  function Word(word: string, rest: Option<seq<string>>): Option<seq<string>> {
    if rest.None? then None else Some([word] + rest.value)
  }

  /** Words separated by white space; quotation marks group, a backslash takes the next character literally.
      `word` is what has been read of the current word, `open` whether there is one. */
  function Scan(t: string, word: string, open: bool, quoted: bool): Option<seq<string>>
    decreases |t|
  {
    if t == "" then (if quoted then None else if open then Some([word]) else Some([]))
    else if t[0] == '"' then Scan(t[1..], word, true, !quoted)
    else if t[0] == '\\' then (if |t| < 2 then None else Scan(t[2..], word + [t[1]], true, quoted))
    else if IsSpace(t[0]) && !quoted then (if open then Word(word, Scan(t[1..], "", false, false)) else Scan(t[1..], "", false, false))
    else Scan(t[1..], word + [t[0]], true, quoted)
  }

  function Tokenize(t: string): Option<seq<string>> { Scan(t, "", false, false) }

  lemma {:induction false} ScanPlain(s: string, rest: string, word: string, open: bool)
    requires Plain(s)
    ensures Scan(s + rest, word, open, false) == Scan(rest, word + s, open || s != "", false)
  {
    if s == "" {
      assert s + rest == rest && word + s == word;
    } else {
      ScanPlain(s[1..], rest, word + [s[0]], true);
      assert (s + rest)[1..] == s[1..] + rest;
      assert word + [s[0]] + s[1..] == word + s;
    }
  }

  lemma ScanOne(c: char, tail: string, word: string)
    ensures Scan((if c == '"' || c == '\\' then ['\\', c] else [c]) + tail, word, true, true) == Scan(tail, word + [c], true, true)
  {
    hide IsSpace;
    if c == '"' || c == '\\' {
      var t := ['\\', c] + tail;
      assert t[2..] == tail;
    } else {
      var t := [c] + tail;
      assert t[1..] == tail;
    }
  }

  lemma ScanClose(rest: string, word: string)
    ensures Scan("\"" + rest, word, true, true) == Scan(rest, word, true, false)
  {
    hide IsSpace;
    assert ("\"" + rest)[1..] == rest;
  }

  lemma {:induction false} ScanEscaped(s: string, rest: string, word: string)
    ensures Scan(Escaped(s) + ("\"" + rest), word, true, true) == Scan(rest, word + s, true, false)
  {
    hide Scan, IsSpace;
    var end := "\"" + rest;
    if s == "" {
      ScanClose(rest, word);
      assert Escaped(s) + end == end && word + s == word;
    } else {
      var tail := Escaped(s[1..]) + end;
      ScanEscaped(s[1..], rest, word + [s[0]]);
      ScanOne(s[0], tail, word);
      assert word + [s[0]] + s[1..] == word + s;
      assert Escaped(s) + end == (if s[0] == '"' || s[0] == '\\' then ['\\', s[0]] else [s[0]]) + tail;
    }
  }

  /** The arguments that read back: everything except a placeholder with white space, a quotation mark or a backslash in it. */
  predicate ReadsBack(arg: string) { IsPlaceholder(arg) ==> Plain(arg) }

  lemma SafeIsPlain(s: string)
    requires IsSafe(s)
    ensures Plain(s)
  {
  }

  lemma ScanArg(arg: string, rest: string)
    requires ReadsBack(arg)
    ensures Scan(QuoteArg(arg) + rest, "", false, false) == Scan(rest, arg, true, false)
  {
    hide IsPlaceholder, IsSafe, Escaped;
    if arg == "" {
      var t := "\"\"" + rest;
      assert t[1..] == "\"" + rest && (t[1..])[1..] == rest;
    } else if IsPlaceholder(arg) || IsSafe(arg) {
      if IsSafe(arg) { SafeIsPlain(arg); }
      ScanPlain(arg, rest, "", false);
      assert "" + arg == arg;
    } else {
      ScanEscaped(arg, rest, "");
      var t := "\"" + Escaped(arg) + "\"" + rest;
      assert t[1..] == Escaped(arg) + ("\"" + rest);
      assert "" + arg == arg;
    }
  }

  /** The display of a list of arguments after a first word. */
  function Spaced(args: seq<string>): string {
    if args == [] then "" else " " + QuoteArg(args[0]) + Spaced(args[1..])
  }

  lemma {:induction false} JoinSpaced(first: string, args: seq<string>)
    ensures Join([first] + Quoted(args), " ") == first + Spaced(args)
    decreases |args|
  {
    hide QuoteArg;
    if args == [] {
      assert [first] + Quoted(args) == [first];
    } else {
      JoinSpaced(QuoteArg(args[0]), args[1..]);
      assert ([first] + Quoted(args))[1..] == [QuoteArg(args[0])] + Quoted(args[1..]);
    }
  }

  lemma ScanNext(word: string, arg: string, tail: string)
    ensures Scan(" " + arg + tail, word, true, false) == Word(word, Scan(arg + tail, "", false, false))
  {
    var t := " " + arg + tail;
    assert t[1..] == arg + tail;
  }

  lemma {:induction false} ScanSpaced(word: string, args: seq<string>)
    requires forall i | 0 <= i < |args| :: ReadsBack(args[i])
    ensures Scan(Spaced(args), word, true, false) == Some([word] + args)
    decreases |args|
  {
    hide ReadsBack, QuoteArg;
    if args == [] {
      assert [word] + args == [word];
    } else {
      ScanNext(word, QuoteArg(args[0]), Spaced(args[1..]));
      ScanArg(args[0], Spaced(args[1..]));
      ScanSpaced(args[0], args[1..]);
      assert [args[0]] + args[1..] == args;
    }
  }

  // ---------------------------------------------------------------- placeholders that do not read back

  /** The first word of a scan does not equal `arg`. */
  ghost predicate Misses(r: Option<seq<string>>, arg: string) { r.None? || r.value == [] || r.value[0] != arg }

  /** What has been read of a word stays its beginning. */
  lemma {:induction false} KeepsPrefix(t: string, word: string, quoted: bool)
    ensures var r := Scan(t, word, true, quoted); r.None? || (r.value != [] && word <= r.value[0])
    decreases |t|
  {
    if t == "" {
    } else if t[0] == '"' {
      KeepsPrefix(t[1..], word, !quoted);
    } else if t[0] == '\\' {
      if |t| >= 2 { KeepsPrefix(t[2..], word + [t[1]], quoted); }
    } else if t[0] == ' ' && !quoted {
    } else {
      KeepsPrefix(t[1..], word + [t[0]], quoted);
    }
  }

  lemma WrongPrefix(t: string, arg: string, j: nat, c: char, quoted: bool)
    requires j < |arg| && c != arg[j]
    ensures Misses(Scan(t, arg[..j] + [c], true, quoted), arg)
  {
    hide Scan;
    KeepsPrefix(t, arg[..j] + [c], quoted);
    var w := arg[..j] + [c];
    assert w[j] == c;
  }

  /** `j` characters of the argument were read, `r > j` of its characters are used up, all of them special from the first
      special one on: the reading stays behind, because each special character it produces costs at least one more. */
  lemma {:induction false} StaysBehind(arg: string, rest: string, i: nat, j: nat, r: nat, quoted: bool)
    requires i <= j < r < |arg| && !IsSpecial(arg[|arg| - 1])
    requires forall k | i <= k < r :: IsSpecial(arg[k])
    ensures Misses(Scan(arg[r..] + rest, arg[..j], true, quoted), arg)
    decreases |arg| - r
  {
    var t := arg[r..] + rest;
    var c := arg[r];
    assert t[0] == c && t[1..] == arg[r + 1..] + rest;
    if c == '"' {
      StaysBehind(arg, rest, i, j, r + 1, !quoted);
    } else if c == '\\' {
      var d := arg[r + 1];
      assert t[1] == d && t[2..] == arg[r + 2..] + rest;
      if d == arg[j] {
        assert arg[..j] + [d] == arg[..j + 1];
        StaysBehind(arg, rest, i, j + 1, r + 2, quoted);
      } else {
        WrongPrefix(t[2..], arg, j, d, quoted);
      }
    } else if c == ' ' && !quoted {
      assert |arg[..j]| == j;
    } else if c == arg[j] {
      assert arg[..j] + [c] == arg[..j + 1];
      StaysBehind(arg, rest, i, j + 1, r + 1, quoted);
    } else {
      WrongPrefix(t[1..], arg, j, c, quoted);
    }
  }

  lemma FirstSpecial(arg: string) returns (i: nat)
    requires !Plain(arg)
    ensures i < |arg| && IsSpecial(arg[i]) && Plain(arg[..i])
  {
    i := 0;
    while !IsSpecial(arg[i])
      invariant i < |arg| && Plain(arg[..i]) && exists k | i <= k < |arg| :: IsSpecial(arg[k])
      decreases |arg| - i
    {
      i := i + 1;
    }
  }

  lemma PlaceholderEnds(arg: string)
    requires IsPlaceholder(arg)
    ensures !IsSpecial(arg[0]) && !IsSpecial(arg[|arg| - 1])
  {
  }

  /** The reading stands before the first special character of the argument. */
  lemma SpecialMisses(arg: string, rest: string, i: nat)
    requires 0 < i < |arg| - 1 && IsSpecial(arg[i]) && !IsSpecial(arg[|arg| - 1])
    ensures Misses(Scan(arg[i..] + rest, arg[..i], true, false), arg)
  {
    hide IsSpace;
    var t := arg[i..] + rest;
    assert t[0] == arg[i] && t[1] == arg[i + 1] && t[1..] == arg[i + 1..] + rest;
    if arg[i] == '"' {
      StaysBehind(arg, rest, i, i, i + 1, true);
    } else if arg[i] == '\\' {
      assert t[2..] == arg[i + 2..] + rest;
      if arg[i + 1] == '\\' {
        assert arg[..i] + ['\\'] == arg[..i + 1];
        StaysBehind(arg, rest, i, i + 1, i + 2, false);
      } else {
        WrongPrefix(t[2..], arg, i, arg[i + 1], false);
      }
    } else {
      assert |arg[..i]| == i;
    }
  }

  /** A placeholder with a special character is never read back as itself. */
  lemma PlaceholderMisses(arg: string, rest: string)
    requires IsPlaceholder(arg) && !Plain(arg)
    ensures Misses(Scan(QuoteArg(arg) + rest, "", false, false), arg)
  {
    hide IsSpecial, Escaped;
    assert QuoteArg(arg) == arg;
    var i := FirstSpecial(arg);
    var t := arg[i..] + rest;
    PlaceholderEnds(arg);
    ScanPlain(arg[..i], t, "", false);
    assert arg + rest == arg[..i] + t && "" + arg[..i] == arg[..i];
    SpecialMisses(arg, rest, i);
  }

  lemma {:induction false} SpacedMisses(word: string, args: seq<string>)
    requires exists i | 0 <= i < |args| :: !ReadsBack(args[i])
    ensures Scan(Spaced(args), word, true, false) != Some([word] + args)
    decreases |args|
  {
    hide QuoteArg;
    ScanNext(word, QuoteArg(args[0]), Spaced(args[1..]));
    var rest := Scan(QuoteArg(args[0]) + Spaced(args[1..]), "", false, false);
    if ReadsBack(args[0]) {
      ScanArg(args[0], Spaced(args[1..]));
      assert exists i | 0 <= i < |args[1..]| :: !ReadsBack(args[1..][i]) by {
        var i :| 0 <= i < |args| && !ReadsBack(args[i]);
        assert args[1..][i - 1] == args[i];
      }
      SpacedMisses(args[0], args[1..]);
      assert [args[0]] + args[1..] == args;
    } else {
      PlaceholderMisses(args[0], Spaced(args[1..]));
    }
    assert rest != Some(args);
    if rest.Some? { SameTail(word, rest.value, args); }
  }

  lemma SameTail(word: string, a: seq<string>, b: seq<string>)
    ensures [word] + a == [word] + b <==> a == b
  {
    assert ([word] + a)[1..] == a && ([word] + b)[1..] == b;
  }

  /** The display of a command reads back as the command exactly when no argument is a placeholder containing white
      space, a quotation mark or a backslash. */
  lemma DisplayRoundTrip(command: string, args: seq<string>)
    requires command != "" && Plain(command)
    ensures Tokenize(FormatCommand(command, args)) == Some([command] + args) <==> forall i | 0 <= i < |args| :: ReadsBack(args[i])
  {
    hide ReadsBack, Plain;
    JoinSpaced(command, args);
    ScanPlain(command, Spaced(args), "", false);
    assert "" + command == command;
    if forall i | 0 <= i < |args| :: ReadsBack(args[i]) {
      ScanSpaced(command, args);
    } else {
      SpacedMisses(command, args);
    }
  }

  // ---------------------------------------------------------------- redaction

  const TOKEN := "--token"
  const HIDDEN := "<value>"

  /** `redactTokenArgs` from position `i` on. */
  function Redacted(args: seq<string>, i: nat): seq<string>
    requires i <= |args|
    decreases |args| - i
  {
    if i == |args| then []
    else if args[i] == TOKEN && i + 1 < |args| then [TOKEN, HIDDEN] + Redacted(args, i + 2)
    else [args[i]] + Redacted(args, i + 1)
  }

  /** Whether the argument at `k` is the value of a token option, when the loop arrives at `i`. */
  predicate IsSecret(args: seq<string>, i: nat, k: nat)
    requires i <= |args|
    decreases |args| - i
  {
    if i >= |args| || k < i then false
    else if args[i] == TOKEN && i + 1 < |args| then k == i + 1 || IsSecret(args, i + 2, k)
    else IsSecret(args, i + 1, k)
  }

  lemma Regroup(a: seq<string>, b: seq<string>, c: seq<string>)
    ensures (a + b) + c == a + (b + c)
  {
  }

  method RedactTokenArgs(args: seq<string>) returns (out: seq<string>)
    ensures out == Redacted(args, 0)
  {
    hide TOKEN, HIDDEN;
    out := [];
    var index := 0;
    while index < |args|
      invariant index <= |args| && out + Redacted(args, index) == Redacted(args, 0)
    {
      ghost var before := out;
      out := out + [args[index]];
      if args[index] == TOKEN && index + 1 < |args| {
        out := out + [HIDDEN];
        assert out == before + [TOKEN, HIDDEN];
        Regroup(before, [TOKEN, HIDDEN], Redacted(args, index + 2));
        index := index + 2;
      } else {
        Regroup(before, [args[index]], Redacted(args, index + 1));
        index := index + 1;
      }
    }
    assert out + [] == out;
  }

  lemma {:induction false} RedactionLength(args: seq<string>, i: nat)
    requires i <= |args|
    ensures |Redacted(args, i)| == |args| - i
    decreases |args| - i
  {
    hide TOKEN, HIDDEN;
    if i < |args| { RedactionLength(args, if args[i] == TOKEN && i + 1 < |args| then i + 2 else i + 1); }
  }

  /** The display keeps every argument that is not a token value in its place and hides every one that is. */
  lemma {:induction false} RedactionExact(args: seq<string>, i: nat, k: nat)
    requires i <= k < |args|
    ensures |Redacted(args, i)| == |args| - i && Redacted(args, i)[k - i] == if IsSecret(args, i, k) then HIDDEN else args[k]
    decreases |args| - i
  {
    hide TOKEN, HIDDEN;
    RedactionLength(args, i);
    var step := if args[i] == TOKEN && i + 1 < |args| then 2 else 1;
    if i + step <= k {
      RedactionExact(args, i + step, k);
      assert Redacted(args, i)[k - i] == Redacted(args, i + step)[k - (i + step)];
    } else {
      SecretsAfter(args, i + step);
    }
  }

  lemma SecretsAfter(args: seq<string>, i: nat)
    requires i <= |args|
    ensures forall k | 0 <= k < i :: !IsSecret(args, i, k)
  {
  }

  /** Two command lines that differ only in token values have the same display. */
  lemma {:induction false} TokenIndependent(a: seq<string>, b: seq<string>, i: nat)
    requires i <= |a| == |b| && forall k | i <= k < |a| :: a[k] == b[k] || IsSecret(a, i, k)
    ensures Redacted(a, i) == Redacted(b, i)
    decreases |a| - i
  {
    hide TOKEN, HIDDEN;
    if i == |a| {
    } else if a[i] == TOKEN && i + 1 < |a| {
      assert !IsSecret(a, i, i) by { SecretsAfter(a, i + 2); }
      TokenIndependent(a, b, i + 2);
    } else {
      assert !IsSecret(a, i, i) by { SecretsAfter(a, i + 1); }
      TokenIndependent(a, b, i + 1);
    }
  }

  /** How many `--token` arguments stand directly before position `k`, from position `i` on. */
  function TokensBefore(args: seq<string>, i: nat, k: nat): nat
    requires i <= k <= |args|
    decreases k
  {
    if k > i && args[k - 1] == "--token" then 1 + TokensBefore(args, i, k - 1) else 0
  }

  lemma {:induction false} TokensFrom(args: seq<string>, i: nat, j: nat, k: nat)
    requires i <= j <= k <= |args|
    ensures TokensBefore(args, i, k) == if TokensBefore(args, j, k) == k - j then TokensBefore(args, i, j) + (k - j) else TokensBefore(args, j, k)
    ensures TokensBefore(args, j, k) <= k - j
    decreases k
  {
    if j < k && args[k - 1] == "--token" { TokensFrom(args, i, j, k - 1); }
  }

  /** An argument is hidden exactly when an odd number of `--token` arguments stands directly before it: the first of a
      pair of them hides the second. */
  lemma {:induction false} SecretExact(args: seq<string>, i: nat, k: nat)
    requires i <= k < |args|
    ensures IsSecret(args, i, k) <==> TokensBefore(args, i, k) % 2 == 1
    decreases |args| - i
  {
    if args[i] == "--token" && i + 1 < |args| {
      if k >= i + 2 {
        SecretExact(args, i + 2, k);
        TokensFrom(args, i, i + 2, k);
        FirstTwo(args, i);
      } else {
        FirstTwo(args, i);
        SecretsAfter(args, i + 2);
      }
    } else {
      if k > i {
        SecretExact(args, i + 1, k);
        TokensFrom(args, i, i + 1, k);
      } else {
        SecretsAfter(args, i + 1);
      }
    }
  }

  lemma FirstTwo(args: seq<string>, i: nat)
    requires i + 1 < |args| && args[i] == "--token"
    ensures TokensBefore(args, i, i) == 0 && TokensBefore(args, i, i + 1) == 1
    ensures TokensBefore(args, i, i + 2) == if args[i + 1] == "--token" then 2 else 0
  {
  }

  /** What the display of a command line shows at each position. */
  lemma ShownExact(args: seq<string>, k: nat)
    requires k < |args|
    ensures |Redacted(args, 0)| == |args| && Redacted(args, 0)[k] == if TokensBefore(args, 0, k) % 2 == 1 then "<value>" else args[k]
  {
    RedactionExact(args, 0, k);
    SecretExact(args, 0, k);
  }
}
