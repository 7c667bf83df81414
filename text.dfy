/** The JavaScript string built-ins that the FEN codec relies on: `trim`, `split` on one
    character, `parseInt` on a decimal field and the conversion of an integer to text. */
module Text {
  import opened Wrappers
  import opened ChessUtils

  // ------------------------------------------------------------------ trim

  /** ECMAScript white space and line terminators, the characters `trim` removes. */
  predicate IsWhiteSpace(c: char) {
    c == '\t' || c == '\n' || c == '\U{000B}' || c == '\U{000C}' || c == '\r' || c == ' ' ||
    c == '\U{00A0}' || c == '\U{1680}' || ('\U{2000}' <= c <= '\U{200A}') ||
    c == '\U{2028}' || c == '\U{2029}' || c == '\U{202F}' || c == '\U{205F}' ||
    c == '\U{3000}' || c == '\U{FEFF}'
  }

  function TrimStart(s: string): (t: string)
    ensures |t| <= |s| && t == s[|s| - |t|..]
    ensures t == [] || !IsWhiteSpace(t[0])
  {
    if s != [] && IsWhiteSpace(s[0]) then TrimStart(s[1..]) else s
  }

  function TrimEnd(s: string): (t: string)
    ensures |t| <= |s| && t == s[..|t|]
    ensures t == [] || !IsWhiteSpace(t[|t| - 1])
  {
    if s != [] && IsWhiteSpace(s[|s| - 1]) then TrimEnd(s[..|s| - 1]) else s
  }

  /** `String.prototype.trim`. */
  function Trim(s: string): string {
    TrimEnd(TrimStart(s))
  }

  /** A string that neither starts nor ends with white space is its own trim. */
  lemma TrimIdentity(s: string)
    requires s != [] && !IsWhiteSpace(s[0]) && !IsWhiteSpace(s[|s| - 1])
    ensures Trim(s) == s
  {
  }

  // ----------------------------------------------------------------- split

  /** `String.prototype.split(sep)` for a one-character separator: the maximal pieces
      between separators, empty pieces included, so n separators give n + 1 pieces. */
  function Split(s: string, sep: char): (parts: seq<string>)
    ensures |parts| >= 1
    ensures forall i :: 0 <= i < |parts| ==> sep !in parts[i]
    ensures Join(parts, sep) == s
    decreases |s|
  {
    if sep !in s then [s]
    else
      var i := IndexOf(s, sep);
      assert s == s[..i] + [sep] + s[i + 1..];
      [s[..i]] + Split(s[i + 1..], sep)
  }

  /** The pieces joined with a separator between consecutive pieces. */
  function Join(parts: seq<string>, sep: char): string
    requires |parts| >= 1
  {
    if |parts| == 1 then parts[0] else parts[0] + [sep] + Join(parts[1..], sep)
  }

  /** Splitting a join gives the pieces back when no piece holds the separator. */
  lemma {:induction false} SplitJoin(parts: seq<string>, sep: char)
    requires |parts| >= 1
    requires forall i :: 0 <= i < |parts| ==> sep !in parts[i]
    ensures Split(Join(parts, sep), sep) == parts
    decreases |parts|
  {
    if |parts| > 1 {
      JoinHead(parts[0], Join(parts[1..], sep), sep);
      SplitJoin(parts[1..], sep);
    }
  }

  /** In `head + [sep] + rest` with no separator in `head`, the first separator is the one
      after `head`. */
  lemma JoinHead(head: string, rest: string, sep: char)
    requires sep !in head
    ensures var s := head + [sep] + rest;
            IndexOf(s, sep) == |head| && s[..|head|] == head && s[|head| + 1..] == rest
  {
    var s := head + [sep] + rest;
    assert s[|head|] == sep;
    assert forall j :: 0 <= j < |head| ==> s[j] == head[j];
    assert s[..|head|] == head;
    assert s[|head| + 1..] == rest;
  }

  // --------------------------------------------------------- integers as text

  /** The longest prefix of `s` made of decimal digits. */
  function DigitPrefix(s: string): (d: string)
    ensures |d| <= |s| && d == s[..|d|]
    ensures forall i :: 0 <= i < |d| ==> IsDigit(d[i])
    ensures |d| < |s| ==> !IsDigit(s[|d|])
  {
    if s != [] && IsDigit(s[0]) then [s[0]] + DigitPrefix(s[1..]) else []
  }

  /** The value of a string of decimal digits. */
  function DigitsValue(d: string): (n: nat)
    requires forall i :: 0 <= i < |d| ==> IsDigit(d[i])
  {
    if d == [] then 0 else DigitsValue(d[..|d| - 1]) * 10 + DigitValue(d[|d| - 1])
  }

  predicate IsHexDigit(c: char) {
    IsDigit(c) || 'a' <= c <= 'f' || 'A' <= c <= 'F'
  }

  function HexDigitValue(c: char): (n: nat)
    requires IsHexDigit(c)
    ensures n < 16
  {
    if IsDigit(c) then DigitValue(c)
    else if 'a' <= c <= 'f' then c as int - 'a' as int + 10
    else c as int - 'A' as int + 10
  }

  /** The longest prefix of `s` made of hexadecimal digits. */
  function HexDigitPrefix(s: string): (d: string)
    ensures |d| <= |s| && d == s[..|d|]
    ensures forall i :: 0 <= i < |d| ==> IsHexDigit(d[i])
    ensures |d| < |s| ==> !IsHexDigit(s[|d|])
  {
    if s != [] && IsHexDigit(s[0]) then [s[0]] + HexDigitPrefix(s[1..]) else []
  }

  function HexDigitsValue(d: string): nat
    requires forall i :: 0 <= i < |d| ==> IsHexDigit(d[i])
  {
    if d == [] then 0 else HexDigitsValue(d[..|d| - 1]) * 16 + HexDigitValue(d[|d| - 1])
  }

  /** Whether `s` (after its sign) starts with the "0x" or "0X" prefix that makes
      parseInt read hexadecimal. */
  predicate HasHexPrefix(s: string) {
    |s| >= 2 && s[0] == '0' && (s[1] == 'x' || s[1] == 'X')
  }

  /** `parseInt(s)` without a radix: leading white space is skipped, then an optional
      sign, then either "0x"/"0X" and the leading run of hexadecimal digits or the
      leading run of decimal digits; None (JavaScript's NaN) when that run is empty.
      Everything after the run is ignored. */
  function ParseInt(s: string): (r: Option<int>)
    ensures r.Some? <==> |DigitRun(Unsigned(TrimStart(s)))| > 0
    ensures r.Some? && (TrimStart(s) == [] || TrimStart(s)[0] != '-') ==> r.value >= 0
  {
    var t := TrimStart(s);
    var magnitude := Magnitude(Unsigned(t));
    if magnitude.None? then None
    else if t != [] && t[0] == '-' then Some(-magnitude.value)
    else magnitude
  }

  /** The text after an optional leading sign. */
  function Unsigned(t: string): (u: string)
    ensures u == t || (t != [] && (t[0] == '-' || t[0] == '+') && u == t[1..])
  {
    if t != [] && (t[0] == '-' || t[0] == '+') then t[1..] else t
  }

  /** The digits parseInt reads after the sign: hexadecimal after "0x"/"0X", decimal otherwise. */
  function DigitRun(u: string): string {
    if HasHexPrefix(u) then HexDigitPrefix(u[2..]) else DigitPrefix(u)
  }

  /** The value of the digit run, None when it is empty. */
  function Magnitude(u: string): (m: Option<int>)
    ensures m.Some? <==> |DigitRun(u)| > 0
    ensures m.Some? ==> m.value >= 0
  {
    if HasHexPrefix(u) then
      var digits := HexDigitPrefix(u[2..]);
      if digits == [] then None else Some(HexDigitsValue(digits))
    else
      var digits := DigitPrefix(u);
      if digits == [] then None else Some(DigitsValue(digits))
  }

  /** The decimal text of a natural number, without leading zeros. */
  function NatToString(n: nat): (s: string)
    ensures s != [] && forall i :: 0 <= i < |s| ==> IsDigit(s[i])
    ensures DigitsValue(s) == n
  {
    if n < 10 then [DigitChar(n)]
    else
      var s := NatToString(n / 10) + [DigitChar(n % 10)];
      assert s[..|s| - 1] == NatToString(n / 10);
      s
  }

  /** `Number.MAX_SAFE_INTEGER`, 2^53 - 1. Up to this magnitude a JavaScript number holds
      every integer exactly, `++` adds exactly one, a template literal writes plain decimal
      digits and `parseInt` reads them back without rounding. */
  const MAX_SAFE_INTEGER: int := 0x1F_FFFF_FFFF_FFFF

  /** The text a template literal gives an integer: its digits, after '-' when negative. */
  function IntToString(n: int): (s: string)
    ensures s != [] && IsDigit(s[|s| - 1])
    ensures forall i :: 0 <= i < |s| ==> IsDigit(s[i]) || (i == 0 && s[i] == '-')
  {
    if n >= 0 then NatToString(n) else "-" + NatToString(-n)
  }

  lemma DigitPrefixOfDigits(d: string)
    requires forall i :: 0 <= i < |d| ==> IsDigit(d[i])
    ensures DigitPrefix(d) == d
  {
    if d != [] {
      DigitPrefixOfDigits(d[1..]);
    }
  }

  /** parseInt reads back what IntToString writes, for every safe integer. */
  lemma ParseIntToString(n: int)
    requires -MAX_SAFE_INTEGER <= n <= MAX_SAFE_INTEGER
    ensures ParseInt(IntToString(n)) == Some(n)
  {
    if n >= 0 {
      var d := NatToString(n);
      UnsignedText(d);
      MagnitudeOfDigits(d);
      ParseUnsigned(d, n);
    } else {
      var d := NatToString(-n);
      NegativeText(d);
      MagnitudeOfDigits(d);
      ParseSigned("-" + d, -n);
    }
  }

  lemma MagnitudeOfDigits(d: string)
    requires d != [] && forall i :: 0 <= i < |d| ==> IsDigit(d[i])
    ensures Magnitude(d) == Some(DigitsValue(d))
  {
    DigitsText(d);
  }

  /** parseInt of a negative number: the magnitude of what follows the '-', negated. */
  lemma ParseSigned(s: string, magnitude: int)
    requires TrimStart(s) != [] && TrimStart(s)[0] == '-'
    requires Magnitude(Unsigned(TrimStart(s))) == Some(magnitude)
    ensures ParseInt(s) == Some(-magnitude)
  {
  }

  /** parseInt of a number without a '-': the magnitude of what follows an optional '+'. */
  lemma ParseUnsigned(s: string, magnitude: int)
    requires TrimStart(s) == [] || TrimStart(s)[0] != '-'
    requires Magnitude(Unsigned(TrimStart(s))) == Some(magnitude)
    ensures ParseInt(s) == Some(magnitude)
  {
  }

  lemma UnsignedText(d: string)
    requires d != [] && forall i :: 0 <= i < |d| ==> IsDigit(d[i])
    ensures TrimStart(d) == d && d[0] != '-' && Unsigned(TrimStart(d)) == d
  {
    DigitsText(d);
  }

  lemma NegativeText(d: string)
    ensures var s := "-" + d; TrimStart(s) == s && s[0] == '-' && Unsigned(TrimStart(s)) == d
  {
    var s := "-" + d;
    assert s[1..] == d;
    TrimStartNonSpace(s);
  }

  lemma TrimStartNonSpace(s: string)
    requires s != [] && !IsWhiteSpace(s[0])
    ensures TrimStart(s) == s
  {
  }

  /** A nonempty run of decimal digits has no leading white space, no hexadecimal
      prefix, and is its own digit prefix. */
  lemma DigitsText(d: string)
    requires d != [] && forall i :: 0 <= i < |d| ==> IsDigit(d[i])
    ensures TrimStart(d) == d && !HasHexPrefix(d) && DigitPrefix(d) == d
  {
    assert IsDigit(d[0]);
    TrimStartNonSpace(d);
    NoHexPrefix(d);
    DigitPrefixOfDigits(d);
  }

  lemma NoHexPrefix(d: string)
    requires forall i :: 0 <= i < |d| ==> IsDigit(d[i])
    ensures !HasHexPrefix(d)
  {
    if |d| >= 2 { assert IsDigit(d[1]); }
  }
}
