/** The JavaScript string operations the application relies on: decimal
    rendering of numbers, `padStart(2, '0')`, `parseInt`, `trim`, `split`,
    `includes` and (for ASCII letters) `toLowerCase`. */
module Text {
  import opened Types

  // ---------------------------------------------------------------- digits

  predicate IsDigit(c: char) {
    '0' <= c <= '9'
  }

  predicate AllDigits(s: string) {
    forall i :: 0 <= i < |s| ==> IsDigit(s[i])
  }

  function DigitChar(d: nat): (c: char)
    requires d < 10
    ensures IsDigit(c)
  {
    ['0', '1', '2', '3', '4', '5', '6', '7', '8', '9'][d]
  }

  function DigitValue(c: char): (d: nat)
    requires IsDigit(c)
    ensures d < 10
  {
    (c as int - '0' as int) as nat
  }

  lemma DigitRoundTrip(d: nat)
    requires d < 10
    ensures DigitValue(DigitChar(d)) == d
  {
  }

  /** `n.toString()` for a non-negative integer: its decimal digits, most
      significant first, without leading zeros. */
  function NatToString(n: nat): (r: string)
    ensures |r| >= 1 && AllDigits(r)
    ensures (|r| == 1) == (n < 10)
    ensures r[0] != '0' || n == 0
    decreases n
  {
    if n < 10 then [DigitChar(n)] else NatToString(n / 10) + [DigitChar(n % 10)]
  }

  /** The value of a string of decimal digits (the empty string reads as 0). */
  function ParseNat(s: string): nat
    requires AllDigits(s)
  {
    if s == [] then 0 else ParseNat(s[..|s| - 1]) * 10 + DigitValue(s[|s| - 1])
  }

  lemma {:induction false} ParseNatToString(n: nat)
    ensures ParseNat(NatToString(n)) == n
    decreases n
  {
    if n >= 10 {
      var r := NatToString(n);
      assert r[..|r| - 1] == NatToString(n / 10);
      ParseNatToString(n / 10);
    }
  }

  /** Leading zeros do not change the value of a digit string. */
  lemma {:induction false} ParseNatLeadingZero(s: string)
    requires AllDigits(s)
    ensures AllDigits("0" + s) && ParseNat("0" + s) == ParseNat(s)
    decreases |s|
  {
    if s != [] {
      var z := "0" + s;
      assert z[..|z| - 1] == "0" + s[..|s| - 1];
      ParseNatLeadingZero(s[..|s| - 1]);
    }
  }

  /** `x.toString()` for any integer. */
  function IntToString(i: int): (r: string)
    ensures |r| >= 1
  {
    if i < 0 then "-" + NatToString(-i) else NatToString(i)
  }

  /** `s.padStart(2, '0')`. */
  function PadStart2(s: string): (r: string)
    ensures |r| == if |s| < 2 then 2 else |s|
    ensures r[|r| - |s|..] == s
    ensures forall i :: 0 <= i < |r| - |s| ==> r[i] == '0'
  {
    if |s| == 0 then "00" else if |s| == 1 then "0" + s else s
  }

  /** Two-digit zero-padded decimal, as the clock displays use it. */
  function Pad2(n: nat): (r: string)
    ensures |r| >= 2 && AllDigits(r)
    ensures n < 100 ==> |r| == 2
    ensures ParseNat(r) == n
  {
    var d := NatToString(n);
    ParseNatToString(n);
    if |d| == 1 then
      ParseNatLeadingZero(d);
      PadStart2(d)
    else
      PadStart2(d)
  }

  // ------------------------------------------------------------ parseInt

  /** The longest prefix of `s` made of decimal digits. */
  function DigitPrefix(s: string): (r: string)
    ensures AllDigits(r) && r <= s
    ensures |r| < |s| ==> !IsDigit(s[|r|])
  {
    if s == [] || !IsDigit(s[0]) then [] else [s[0]] + DigitPrefix(s[1..])
  }

  lemma {:induction false} DigitPrefixOf(d: string, rest: string)
    requires AllDigits(d)
    requires rest == [] || !IsDigit(rest[0])
    ensures DigitPrefix(d + rest) == d
    decreases |d|
  {
    if d == [] {
      assert d + rest == rest;
    } else {
      assert (d + rest)[1..] == d[1..] + rest;
      DigitPrefixOf(d[1..], rest);
    }
  }

  /** The characters JavaScript's `trim` and `parseInt` skip: the ECMAScript
      WhiteSpace and LineTerminator code points. */
  predicate IsJsWhitespace(c: char) {
    || c == ' ' || c == '\t' || c == '\n' || c == '\r'
    || c == '\U{000B}' || c == '\U{000C}' || c == '\U{00A0}' || c == '\U{1680}'
    || ('\U{2000}' <= c <= '\U{200A}')
    || c == '\U{2028}' || c == '\U{2029}' || c == '\U{202F}' || c == '\U{205F}'
    || c == '\U{3000}' || c == '\U{FEFF}'
  }

  /** `s.trimStart()`. */
  function TrimStart(s: string): (r: string)
    ensures |r| <= |s|
  {
    if s != [] && IsJsWhitespace(s[0]) then TrimStart(s[1..]) else s
  }

  /** `s.trimEnd()`. */
  function TrimEnd(s: string): (r: string)
    ensures |r| <= |s|
  {
    if s != [] && IsJsWhitespace(s[|s| - 1]) then TrimEnd(s[..|s| - 1]) else s
  }

  /** `trimStart` drops the leading whitespace and nothing else. */
  lemma {:induction false} TrimStartShape(s: string)
    ensures var r := TrimStart(s);
      && r == s[|s| - |r|..]
      && (forall i :: 0 <= i < |s| - |r| ==> IsJsWhitespace(s[i]))
      && (r == [] || !IsJsWhitespace(r[0]))
    decreases |s|
  {
    if s != [] && IsJsWhitespace(s[0]) {
      var r := TrimStart(s);
      TrimStartShape(s[1..]);
      assert r == s[1..][|s| - 1 - |r|..];
      forall i | 0 < i < |s| - |r| ensures IsJsWhitespace(s[i]) {
        assert s[i] == s[1..][i - 1];
      }
    }
  }

  /** `trimEnd` drops the trailing whitespace and nothing else. */
  lemma {:induction false} TrimEndShape(s: string)
    ensures var r := TrimEnd(s);
      && r == s[..|r|]
      && (forall i :: |r| <= i < |s| ==> IsJsWhitespace(s[i]))
      && (r == [] || !IsJsWhitespace(r[|r| - 1]))
    decreases |s|
  {
    if s != [] && IsJsWhitespace(s[|s| - 1]) {
      var r := TrimEnd(s);
      TrimEndShape(s[..|s| - 1]);
      assert r == s[..|s| - 1][..|r|];
      forall i | |r| <= i < |s| - 1 ensures IsJsWhitespace(s[i]) {
        assert s[i] == s[..|s| - 1][i];
      }
    }
  }

  /** `s.trim()`. */
  function Trim(s: string): string {
    TrimEnd(TrimStart(s))
  }

  lemma TrimSlice(s: string)
    ensures var r, i := Trim(s), |s| - |TrimStart(s)|;
      i + |r| <= |s| && r == s[i..i + |r|]
  {
    var t := TrimStart(s);
    var r := TrimEnd(t);
    TrimStartShape(s);
    TrimEndShape(t);
    assert t == s[|s| - |t|..] && r == t[..|r|];
  }

  lemma TrimDropsTrailing(s: string)
    ensures var r, i := Trim(s), |s| - |TrimStart(s)|;
      forall k :: i + |r| <= k < |s| ==> IsJsWhitespace(s[k])
  {
    var t := TrimStart(s);
    var r := TrimEnd(t);
    var i := |s| - |t|;
    TrimStartShape(s);
    TrimEndShape(t);
    forall k | i + |r| <= k < |s| ensures IsJsWhitespace(s[k]) {
      assert s[k] == t[k - i];
    }
  }

  lemma TrimEnds(s: string)
    ensures var r := Trim(s);
      r == [] || (!IsJsWhitespace(r[0]) && !IsJsWhitespace(r[|r| - 1]))
  {
    var t := TrimStart(s);
    var r := TrimEnd(t);
    TrimStartShape(s);
    TrimEndShape(t);
    if r != [] {
      assert r[0] == t[0];
    }
  }

  /** `trim` keeps one contiguous piece of the input, drops only whitespace
      around it, and leaves no whitespace at either end. */
  lemma TrimInfix(s: string)
    ensures var r, i := Trim(s), |s| - |TrimStart(s)|;
      && i + |r| <= |s| && r == s[i..i + |r|]
      && (forall k :: 0 <= k < i ==> IsJsWhitespace(s[k]))
      && (forall k :: i + |r| <= k < |s| ==> IsJsWhitespace(s[k]))
    ensures var r := Trim(s);
      r == [] || (!IsJsWhitespace(r[0]) && !IsJsWhitespace(r[|r| - 1]))
  {
    TrimStartShape(s);
    TrimSlice(s);
    TrimDropsTrailing(s);
    TrimEnds(s);
  }

  /** The trimmed string occurs in the input. */
  lemma TrimIncluded(s: string)
    ensures Includes(s, Trim(s))
  {
    TrimInfix(s);
    var r, i := Trim(s), |s| - |TrimStart(s)|;
    assert r <= s[i..];
  }

  /** A string trims to nothing exactly when it is all whitespace. */
  lemma TrimEmptyIff(s: string)
    ensures Trim(s) == [] <==> forall k :: 0 <= k < |s| ==> IsJsWhitespace(s[k])
  {
    TrimInfix(s);
    var r, i := Trim(s), |s| - |TrimStart(s)|;
    if r != [] {
      assert s[i] == r[0];
    }
  }

  lemma TrimIdempotent(s: string)
    ensures Trim(Trim(s)) == Trim(s)
  {
    var r := Trim(s);
    TrimInfix(s);
    assert TrimStart(r) == r;
    assert TrimEnd(r) == r;
  }

  /** `parseInt(s)` (radix 10): leading whitespace, an optional sign and the
      longest run of digits after it; `None` stands for `NaN`. */
  function JsParseInt(s: string): Option<int> {
    var t := TrimStart(s);
    if t != [] && (t[0] == '-' || t[0] == '+') then
      var d := DigitPrefix(t[1..]);
      var v: int := ParseNat(d);
      if d == [] then None else if t[0] == '-' then Some(-v) else Some(v)
    else
      var d := DigitPrefix(t);
      if d == [] then None else Some(ParseNat(d))
  }

  /** Text that starts with a digit is read as its leading run of digits. */
  lemma ParseIntUnsigned(s: string)
    requires s != [] && IsDigit(s[0])
    ensures DigitPrefix(s) != [] && JsParseInt(s) == Some(ParseNat(DigitPrefix(s)))
  {
    assert !IsJsWhitespace(s[0]) && s[0] != '-' && s[0] != '+';
    assert TrimStart(s) == s;
  }

  /** Text made of a minus sign and a tail `t` whose leading digits are
      `d`, with at least one digit, is read as the negation of `d`. */
  lemma ParseIntMinus(s: string, t: string, d: string)
    requires s == ['-'] + t && DigitPrefix(t) == d && d != []
    ensures JsParseInt(s) == Some(-(ParseNat(d) as int))
  {
    assert !IsJsWhitespace(s[0]);
    assert TrimStart(s) == s;
    assert s[1..] == t;
  }

  /** `parseInt` reads a run of digits, whatever non-digit text follows it. */
  lemma ParseIntOfDigits(d: string, rest: string, s: string)
    requires d != [] && AllDigits(d)
    requires rest == [] || !IsDigit(rest[0])
    requires s == d + rest
    ensures JsParseInt(s) == Some(ParseNat(d) as int)
  {
    assert s[0] == d[0];
    ParseIntUnsigned(s);
    DigitPrefixOf(d, rest);
  }

  /** `parseInt` reads a minus sign and a run of digits as a negative number. */
  lemma ParseIntOfNegativeDigits(d: string, rest: string, s: string)
    requires d != [] && AllDigits(d)
    requires rest == [] || !IsDigit(rest[0])
    requires s == "-" + d + rest
    ensures JsParseInt(s) == Some(-(ParseNat(d) as int))
  {
    var t := d + rest;
    assert s == ['-'] + t;
    DigitPrefixOf(d, rest);
    ParseIntMinus(s, t, d);
  }

  /** `parseInt` reads back what integer rendering writes, whatever
      non-digit text follows it. */
  lemma ParseIntOfIntToString(i: int, rest: string)
    requires rest == [] || !IsDigit(rest[0])
    ensures JsParseInt(IntToString(i) + rest) == Some(i)
  {
    if i >= 0 {
      ParseIntOfNonNegative(i, rest);
    } else {
      ParseIntOfNegative(i, rest);
    }
  }

  lemma ParseIntOfNonNegative(i: int, rest: string)
    requires i >= 0 && (rest == [] || !IsDigit(rest[0]))
    ensures JsParseInt(IntToString(i) + rest) == Some(i)
  {
    ParseNatToString(i);
    ParseIntOfDigits(NatToString(i), rest, IntToString(i) + rest);
  }

  lemma ParseIntOfNegative(i: int, rest: string)
    requires i < 0 && (rest == [] || !IsDigit(rest[0]))
    ensures JsParseInt(IntToString(i) + rest) == Some(i)
  {
    var n: nat := -i;
    var d, s := NatToString(n), IntToString(i) + rest;
    assert JsParseInt(s) == Some(-(ParseNat(d) as int)) by {
      ParseIntOfNegativeDigits(d, rest, s);
    }
    assert ParseNat(d) == n by {
      ParseNatToString(n);
    }
  }

  // --------------------------------------------------------------- split

  /** `s.split(sep)` for a one-character separator. */
  function Split(s: string, sep: char): (parts: seq<string>)
    ensures |parts| >= 1
    ensures forall k :: 0 <= k < |parts| ==> sep !in parts[k]
    decreases |s|
  {
    if sep !in s then [s]
    else
      var i := IndexOf(s, sep);
      [s[..i]] + Split(s[i + 1..], sep)
  }

  function IndexOf(s: string, c: char): (i: nat)
    requires c in s
    ensures i < |s| && s[i] == c && c !in s[..i]
  {
    if s[0] == c then 0 else 1 + IndexOf(s[1..], c)
  }

  lemma SplitJoin(a: string, sep: char, b: string)
    requires sep !in a
    ensures Split(a + [sep] + b, sep) == [a] + Split(b, sep)
  {
    var s := a + [sep] + b;
    assert s[|a|] == sep;
    assert s[..|a|] == a;
    var i := IndexOf(s, sep);
    assert s[..i] == a;
    assert s[i + 1..] == b;
  }

  lemma SplitOne(a: string, sep: char)
    requires sep !in a
    ensures Split(a, sep) == [a]
  {
  }

  lemma SplitTwo(a: string, b: string, sep: char)
    requires sep !in a && sep !in b
    ensures Split(a + [sep] + b, sep) == [a, b]
  {
    SplitJoin(a, sep, b);
    SplitOne(b, sep);
  }

  lemma SplitThree(a: string, b: string, c: string, sep: char)
    requires sep !in a && sep !in b && sep !in c
    ensures Split(a + [sep] + b + [sep] + c, sep) == [a, b, c]
  {
    var bc := b + [sep] + c;
    SplitTwo(b, c, sep);
    assert a + [sep] + b + [sep] + c == a + [sep] + bc;
    SplitJoin(a, sep, bc);
  }

  // --------------------------------------------------- search and case

  /** `toLowerCase` restricted to ASCII letters. */
  function AsciiLower(s: string): (r: string)
    ensures |r| == |s|
    ensures forall i :: 0 <= i < |s| ==>
      r[i] == if 'A' <= s[i] <= 'Z' then (s[i] as int + 32) as char else s[i]
  {
    if s == [] then []
    else [if 'A' <= s[0] <= 'Z' then (s[0] as int + 32) as char else s[0]] + AsciiLower(s[1..])
  }

  lemma AsciiLowerIdempotent(s: string)
    ensures AsciiLower(AsciiLower(s)) == AsciiLower(s)
  {
  }

  /** `hay.includes(needle)`. */
  predicate Includes(hay: string, needle: string) {
    exists i :: 0 <= i <= |hay| && needle <= hay[i..]
  }
}
