/** The pieces of JavaScript's string semantics that the modelled code relies on:
    the `\s` class and `trim`, `startsWith`, `slice` with negative indices,
    `join`, `split` on a one-character separator, `includes`, number-to-string
    conversion of integers, `Number.parseInt` and the regex-metacharacter
    escaping `replace(/[.*+?^${}()|[\]\\]/g, '\\$&')`. */
module JsStrings {
  import opened Wrappers

  /** JavaScript's WhiteSpace and LineTerminator code points: the set matched by
      `\s` and removed by `String.prototype.trim`. */
  predicate IsWhitespace(c: char) {
    c == ' ' || c == '\t' || c == '\n' || c == '\r' || c == '\U{B}' || c == '\U{C}'
    || c == '\U{A0}' || c == '\U{1680}' || ('\U{2000}' <= c <= '\U{200A}')
    || c == '\U{2028}' || c == '\U{2029}' || c == '\U{202F}' || c == '\U{205F}'
    || c == '\U{3000}' || c == '\U{FEFF}'
  }

  predicate IsDigit(c: char) { '0' <= c <= '9' }

  /** Leading whitespace removed. */
  function TrimStart(s: string): (r: string)
    ensures |r| <= |s|
    ensures r == [] || !IsWhitespace(r[0])
  {
    if s != [] && IsWhitespace(s[0]) then TrimStart(s[1..]) else s
  }

  /** `TrimStart` keeps a suffix of its input and drops only whitespace. */
  lemma {:induction false} TrimStartSuffix(s: string)
    ensures TrimStart(s) == s[|s| - |TrimStart(s)|..]
    ensures forall i :: 0 <= i < |s| - |TrimStart(s)| ==> IsWhitespace(s[i])
    decreases |s|
  {
    if s != [] && IsWhitespace(s[0]) {
      TrimStartSuffix(s[1..]);
      assert s[1..][|s| - 1 - |TrimStart(s)|..] == s[|s| - |TrimStart(s)|..];
      forall i | 1 <= i < |s| - |TrimStart(s)|
        ensures IsWhitespace(s[i])
      {
        assert s[i] == s[1..][i - 1];
      }
    }
  }

  function TrimEnd(s: string): (r: string)
    ensures |r| <= |s| && r == s[..|r|]
    ensures forall i :: |r| <= i < |s| ==> IsWhitespace(s[i])
    ensures r == [] || !IsWhitespace(r[|r| - 1])
  {
    if s != [] && IsWhitespace(s[|s| - 1]) then TrimEnd(s[..|s| - 1]) else s
  }

  /** `String.prototype.trim`. */
  function Trim(s: string): string {
    TrimEnd(TrimStart(s))
  }

  function StartsWith(s: string, prefix: string): bool {
    |prefix| <= |s| && s[..|prefix|] == prefix
  }

  function EndsWith(s: string, suffix: string): bool {
    |suffix| <= |s| && s[|s| - |suffix|..] == suffix
  }

  /** `String.prototype.includes` with a string argument. */
  function Includes(s: string, sub: string): bool {
    StartsWith(s, sub) || (s != [] && Includes(s[1..], sub))
  }

  /** How `slice` resolves one index argument: negative counts from the end,
      and the result is clamped to `[0, len]`. */
  function ClampIndex(i: int, len: nat): (r: nat)
    ensures r <= len
  {
    if i < 0 then (if len + i < 0 then 0 else len + i) else if i > len then len else i
  }

  /** `String.prototype.slice(start, end)`. */
  function Slice(s: string, start: int, end: int): (r: string)
    ensures |r| <= |s|
  {
    var a := ClampIndex(start, |s|);
    var b := ClampIndex(end, |s|);
    if a >= b then "" else s[a..b]
  }

  /** `Array.prototype.join(sep)` on strings. */
  function Join(parts: seq<string>, sep: string): string {
    if |parts| == 0 then ""
    else if |parts| == 1 then parts[0]
    else parts[0] + sep + Join(parts[1..], sep)
  }

  function Concat(parts: seq<string>): string {
    if parts == [] then "" else parts[0] + Concat(parts[1..])
  }

  /** Appending a part to the list appends its text. */
  lemma {:induction false} ConcatSnoc(parts: seq<string>, last: string)
    ensures Concat(parts + [last]) == Concat(parts) + last
  {
    if parts != [] {
      assert (parts + [last])[1..] == parts[1..] + [last];
      ConcatSnoc(parts[1..], last);
    }
  }

  /** `String.prototype.split(sep)` for a one-character separator, with the
      text collected so far in `current`. */
  function SplitFrom(s: string, sep: char, current: string): (r: seq<string>)
    ensures |r| >= 1
  {
    if s == [] then [current]
    else if s[0] == sep then [current] + SplitFrom(s[1..], sep, "")
    else SplitFrom(s[1..], sep, current + [s[0]])
  }

  function Split(s: string, sep: char): seq<string> {
    SplitFrom(s, sep, "")
  }

  lemma {:induction false} SplitFromJoin(s: string, sep: char, current: string)
    requires sep !in current
    ensures Join(SplitFrom(s, sep, current), [sep]) == current + s
    ensures forall k :: 0 <= k < |SplitFrom(s, sep, current)| ==> sep !in SplitFrom(s, sep, current)[k]
  {
    if s == [] {
    } else if s[0] == sep {
      SplitFromJoin(s[1..], sep, "");
      assert s == [sep] + s[1..];
    } else {
      SplitFromJoin(s[1..], sep, current + [s[0]]);
      assert current + s == current + [s[0]] + s[1..];
    }
  }

  /** Splitting on a separator and joining with it again gives back the text,
      and no part contains the separator. */
  lemma {:induction false} SplitJoin(s: string, sep: char)
    ensures Join(Split(s, sep), [sep]) == s
    ensures forall k :: 0 <= k < |Split(s, sep)| ==> sep !in Split(s, sep)[k]
  {
    SplitFromJoin(s, sep, "");
  }

  /** Text without the separator only extends the part being collected. */
  lemma {:induction false} SplitFromPlain(t: string, rest: string, sep: char, current: string)
    requires sep !in t
    ensures SplitFrom(t + rest, sep, current) == SplitFrom(rest, sep, current + t)
  {
    if t == [] {
      assert t + rest == rest && current + t == current;
    } else {
      assert (t + rest)[0] == t[0] && (t + rest)[1..] == t[1..] + rest;
      SplitFromPlain(t[1..], rest, sep, current + [t[0]]);
      assert current + [t[0]] + t[1..] == current + t;
    }
  }

  /** Joining parts that do not contain the separator and splitting again
      gives back the parts. */
  lemma {:induction false} SplitOfJoin(parts: seq<string>, sep: char)
    requires |parts| >= 1 && forall k :: 0 <= k < |parts| ==> sep !in parts[k]
    ensures Split(Join(parts, [sep]), sep) == parts
  {
    if |parts| == 1 {
      SplitFromPlain(parts[0], "", sep, "");
      assert parts[0] + "" == parts[0] && "" + parts[0] == parts[0];
    } else {
      var tail := Join(parts[1..], [sep]);
      assert Join(parts, [sep]) == parts[0] + ([sep] + tail);
      SplitFromPlain(parts[0], [sep] + tail, sep, "");
      assert "" + parts[0] == parts[0];
      assert ([sep] + tail)[0] == sep && ([sep] + tail)[1..] == tail;
      assert SplitFrom([sep] + tail, sep, parts[0]) == [parts[0]] + SplitFrom(tail, sep, "");
      SplitOfJoin(parts[1..], sep);
      assert [parts[0]] + parts[1..] == parts;
    }
  }

  // ---- integers and text ----

  function DigitChar(d: nat): (c: char)
    requires d < 10
    ensures IsDigit(c)
  {
    ['0', '1', '2', '3', '4', '5', '6', '7', '8', '9'][d]
  }

  /** Decimal rendering of a natural number, as `String(n)` for a safe integer. */
  function NatToString(n: nat): (r: string)
    ensures |r| >= 1
    ensures forall i :: 0 <= i < |r| ==> IsDigit(r[i])
  {
    if n < 10 then [DigitChar(n)] else NatToString(n / 10) + [DigitChar(n % 10)]
  }

  /** `String(n)` for an integer `n`. */
  function IntToString(i: int): string {
    if i < 0 then "-" + NatToString(-i) else NatToString(i)
  }

  /** Value of a digit in base 10 or 16; -1 when `c` is not a digit of that base. */
  function DigitValue(c: char, radix: nat): int {
    if '0' <= c <= '9' then (c as int - '0' as int)
    else if radix == 16 && 'a' <= c <= 'f' then (c as int - 'a' as int + 10)
    else if radix == 16 && 'A' <= c <= 'F' then (c as int - 'A' as int + 10)
    else -1
  }

  /** Length of the longest prefix of `s` made of digits of `radix`. */
  function LeadingDigits(s: string, radix: nat): (k: nat)
    ensures k <= |s|
  {
    if s != [] && DigitValue(s[0], radix) >= 0 then 1 + LeadingDigits(s[1..], radix) else 0
  }

  /** `LeadingDigits` counts digits up to the first character that is not one. */
  lemma {:induction false} LeadingDigitsSpec(s: string, radix: nat)
    ensures forall i :: 0 <= i < LeadingDigits(s, radix) ==> DigitValue(s[i], radix) >= 0
    ensures LeadingDigits(s, radix) < |s| ==> DigitValue(s[LeadingDigits(s, radix)], radix) < 0
    decreases |s|
  {
    if s != [] && DigitValue(s[0], radix) >= 0 {
      LeadingDigitsSpec(s[1..], radix);
      forall i | 1 <= i < LeadingDigits(s, radix)
        ensures DigitValue(s[i], radix) >= 0
      {
        assert s[i] == s[1..][i - 1];
      }
    }
  }

  /** The value of a string of digits read in `radix`, most significant first. */
  function DigitsValue(s: string, radix: nat): int {
    if s == [] then 0
    else DigitsValue(s[..|s| - 1], radix) * radix + DigitValue(s[|s| - 1], radix)
  }

  /** `Number.parseInt(s)` with no radix; `None` stands for NaN. Leading
      whitespace and one sign are skipped, a `0x`/`0X` prefix selects base 16,
      and the longest run of digits that follows is read. */
  function ParseInt(s: string): Option<int> {
    var t := TrimStart(s);
    if t != [] && t[0] == '-' then
      match ParseUnsigned(t[1..])
      case Some(m) => Some(-m)
      case None => None
    else if t != [] && t[0] == '+' then ParseUnsigned(t[1..])
    else ParseUnsigned(t)
  }

  /** The unsigned part of `parseInt`: an optional `0x` prefix, then digits. */
  function ParseUnsigned(u: string): Option<int> {
    var hex := |u| >= 2 && u[0] == '0' && (u[1] == 'x' || u[1] == 'X');
    var radix := if hex then 16 else 10;
    var v := if hex then u[2..] else u;
    var k := LeadingDigits(v, radix);
    if k == 0 then None else Some(DigitsValue(v[..k], radix))
  }

  lemma {:induction false} DigitsValueNonNegative(s: string, radix: nat)
    requires forall i :: 0 <= i < |s| ==> DigitValue(s[i], radix) >= 0
    ensures DigitsValue(s, radix) >= 0
  {
    if s != [] {
      DigitsValueNonNegative(s[..|s| - 1], radix);
    }
  }

  lemma {:induction false} NatToStringValue(n: nat)
    ensures DigitsValue(NatToString(n), 10) == n
    ensures LeadingDigits(NatToString(n), 10) == |NatToString(n)|
  {
    var s := NatToString(n);
    AllDigitsLeading(s);
    if n >= 10 {
      NatToStringValue(n / 10);
      assert s[..|s| - 1] == NatToString(n / 10);
    }
  }

  lemma {:induction false} AllDigitsLeading(s: string)
    requires forall i :: 0 <= i < |s| ==> IsDigit(s[i])
    ensures LeadingDigits(s, 10) == |s|
  {
    if s != [] {
      AllDigitsLeading(s[1..]);
    }
  }

  lemma {:induction false} ParseUnsignedDigits(u: string)
    requires u != [] && forall i :: 0 <= i < |u| ==> IsDigit(u[i])
    ensures ParseUnsigned(u) == Some(DigitsValue(u, 10))
  {
    assert !(|u| >= 2 && u[0] == '0' && (u[1] == 'x' || u[1] == 'X')) by {
      if |u| >= 2 { assert IsDigit(u[1]); }
    }
    AllDigitsLeading(u);
    assert u[..|u|] == u;
  }

  /** A run of decimal digits parses to its value, whatever sign precedes it. */
  lemma {:induction false} ParseIntNegative(u: string)
    requires u != [] && forall i :: 0 <= i < |u| ==> IsDigit(u[i])
    ensures ParseInt("-" + u) == Some(-DigitsValue(u, 10))
  {
    ParseIntMinus(u);
    ParseUnsignedDigits(u);
  }

  /** A `-` followed by `u` parses to the negated value of `u`. */
  lemma {:induction false} ParseIntMinus(u: string)
    ensures ParseInt("-" + u) == match ParseUnsigned(u) case Some(m) => Some(-m) case None => None
  {
    var t := "-" + u;
    assert t[0] == '-' && t[1..] == u;
    TrimStartNoop(t);
  }

  lemma {:induction false} ParseIntNonNegative(u: string)
    requires u != [] && forall i :: 0 <= i < |u| ==> IsDigit(u[i])
    ensures ParseInt(u) == Some(DigitsValue(u, 10))
  {
    ParseUnsignedDigits(u);
    TrimStartNoop(u);
    assert u[0] != '-' && u[0] != '+';
  }

  lemma {:induction false} TrimStartNoop(t: string)
    requires t != [] && (t[0] == '-' || IsDigit(t[0]))
    ensures TrimStart(t) == t
  {
  }

  /** `Number.parseInt(String(i))` gives `i` back: the round trip that
      `validateQuantifiers` relies on when it compares the bounds it rendered. */
  lemma {:induction false} ParseIntOfIntToString(i: int)
    ensures ParseInt(IntToString(i)) == Some(i)
  {
    var m: nat := if i < 0 then -i else i;
    NatToStringValue(m);
    if i < 0 {
      ParseIntNegative(NatToString(m));
    } else {
      ParseIntNonNegative(NatToString(m));
    }
  }

  // ---- regular-expression escaping ----

  /** The characters escaped by `replace(/[.*+?^${}()|[\]\\]/g, '\\$&')`. */
  predicate IsRegexMeta(c: char) {
    c == '.' || c == '*' || c == '+' || c == '?' || c == '^' || c == '$' || c == '{' || c == '}'
    || c == '(' || c == ')' || c == '|' || c == '[' || c == ']' || c == '\\'
  }

  /** Puts a backslash before every regex metacharacter. */
  function RegexEscape(s: string): string {
    if s == [] then ""
    else (if IsRegexMeta(s[0]) then ['\\', s[0]] else [s[0]]) + RegexEscape(s[1..])
  }

  /** The reading a regex engine gives an escaped literal: a backslash takes the
      next character literally. The partner of `RegexEscape`. */
  function RegexUnescape(t: string): string {
    if t == [] then ""
    else if t[0] == '\\' && |t| >= 2 then [t[1]] + RegexUnescape(t[2..])
    else [t[0]] + RegexUnescape(t[1..])
  }

  /** Text in which every metacharacter is either a backslash escaping the next
      character or is itself escaped. */
  predicate IsSafeLiteral(t: string) {
    if t == [] then true
    else if t[0] == '\\' then |t| >= 2 && IsSafeLiteral(t[2..])
    else !IsRegexMeta(t[0]) && IsSafeLiteral(t[1..])
  }

  /** Escaping never loses text and leaves no metacharacter unescaped. */
  lemma {:induction false} RegexEscapeRoundTrip(s: string)
    ensures RegexUnescape(RegexEscape(s)) == s
    ensures IsSafeLiteral(RegexEscape(s))
  {
    if s != [] {
      RegexEscapeRoundTrip(s[1..]);
      var head := if IsRegexMeta(s[0]) then ['\\', s[0]] else [s[0]];
      var t := RegexEscape(s);
      assert t == head + RegexEscape(s[1..]);
      if IsRegexMeta(s[0]) {
        assert t[2..] == RegexEscape(s[1..]);
      } else {
        assert t[1..] == RegexEscape(s[1..]);
      }
    }
  }
}
