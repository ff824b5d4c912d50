/** The global `parseInt(string, 10)` of JavaScript (section 19.2.5 of
    ECMA-262), as the adapter uses it to turn a script's `sourceId` into a
    numeric `sourceReference`.  It never throws: an input without a leading
    decimal digit yields NaN, written `None` here. */
module JsParseInt {
  import opened Wrappers

  /** WhiteSpace and LineTerminator code points (sections 12.2 and 12.3 of
      ECMA-262), which `parseInt` trims from the front of its input. */
  predicate IsJsWhitespace(c: char) {
    c == '\t' || c == '\n' || c == '\U{B}' || c == '\U{C}' || c == '\r' ||
    c == ' ' || c == '\U{A0}' || c == '\U{1680}' ||
    ('\U{2000}' <= c <= '\U{200A}') ||
    c == '\U{2028}' || c == '\U{2029}' || c == '\U{202F}' || c == '\U{205F}' ||
    c == '\U{3000}' || c == '\U{FEFF}'
  }

  predicate IsDigit(c: char) {
    '0' <= c <= '9'
  }

  predicate AllDigits(s: string) {
    forall i :: 0 <= i < |s| ==> IsDigit(s[i])
  }

  predicate AllWhitespace(s: string) {
    forall i :: 0 <= i < |s| ==> IsJsWhitespace(s[i])
  }

  /** The input with its leading whitespace removed. */
  function TrimStart(s: string): string {
    if s != [] && IsJsWhitespace(s[0]) then TrimStart(s[1..]) else s
  }

  /** `TrimStart` removes exactly the whitespace in front: what it drops is
      all whitespace and what it keeps does not start with any. */
  lemma {:induction false} TrimStartRemovesLeadingWhitespace(s: string)
    ensures |TrimStart(s)| <= |s| && TrimStart(s) == s[|s| - |TrimStart(s)|..]
    ensures AllWhitespace(s[..|s| - |TrimStart(s)|])
    ensures TrimStart(s) == [] || !IsJsWhitespace(TrimStart(s)[0])
  {
    if s != [] && IsJsWhitespace(s[0]) {
      TrimStartRemovesLeadingWhitespace(s[1..]);
    }
  }

  /** The longest prefix of the input made of decimal digits. */
  function DigitPrefix(s: string): (d: string)
    ensures AllDigits(d)
  {
    if s != [] && IsDigit(s[0]) then [s[0]] + DigitPrefix(s[1..]) else []
  }

  /** `DigitPrefix` is the longest prefix of digits: a prefix, all digits,
      and followed by the end or by a non-digit. */
  lemma {:induction false} DigitPrefixIsLongest(s: string)
    ensures |DigitPrefix(s)| <= |s| && DigitPrefix(s) == s[..|DigitPrefix(s)|]
    ensures |DigitPrefix(s)| == |s| || !IsDigit(s[|DigitPrefix(s)|])
  {
    if s != [] && IsDigit(s[0]) {
      DigitPrefixIsLongest(s[1..]);
    }
  }

  /** The value of a string of decimal digits, most significant first. */
  function DigitsValue(d: string): nat
    requires AllDigits(d)
  {
    if d == [] then 0
    else DigitsValue(d[..|d| - 1]) * 10 + (d[|d| - 1] as int - '0' as int)
  }

  /** `parseInt(s, 10)`: trim leading whitespace, then read the rest with
      `ParseTrimmed`. The value is the exact integer (JavaScript rounds
      beyond 2^53, and keeps a negative zero that an integer cannot). */
  function ParseInt(s: string): Option<int> {
    ParseTrimmed(TrimStart(s))
  }

  /** One optional sign, then the longest run of decimal digits; no digits
      means NaN. */
  function ParseTrimmed(t: string): Option<int> {
    var unsigned := if t != [] && (t[0] == '-' || t[0] == '+') then t[1..] else t;
    var digits := DigitPrefix(unsigned);
    var magnitude: int := DigitsValue(digits);
    if digits == [] then None
    else if t[0] == '-' then Some(-magnitude)
    else Some(magnitude)
  }

  /** Reference encoding: the shortest decimal numeral of a natural number. */
  function Decimal(n: nat): (s: string)
    ensures s != [] && AllDigits(s)
  {
    var last := ['0' + (n % 10) as char];
    if n < 10 then last else Decimal(n / 10) + last
  }

  /** The decimal numeral of an integer, with a leading '-' when negative. */
  function SignedDecimal(n: int): string {
    if n < 0 then "-" + Decimal(-n) else Decimal(n)
  }

  lemma {:induction false} DecimalValue(n: nat)
    ensures DigitsValue(Decimal(n)) == n
  {
    if n >= 10 {
      DecimalValue(n / 10);
      var s := Decimal(n);
      assert s[..|s| - 1] == Decimal(n / 10);
    }
  }

  lemma {:induction false} DigitPrefixOfDigits(d: string, rest: string)
    requires AllDigits(d)
    requires rest == [] || !IsDigit(rest[0])
    ensures DigitPrefix(d + rest) == d
  {
    if d != [] {
      assert (d + rest)[1..] == d[1..] + rest;
      DigitPrefixOfDigits(d[1..], rest);
    }
  }

  /** A sign (or none) followed by a digit run and non-digit text reads as
      that run's value. */
  lemma ParseTrimmedDigits(sign: string, d: string, rest: string)
    requires sign == [] || sign == "-" || sign == "+"
    requires d != [] && AllDigits(d)
    requires rest == [] || !IsDigit(rest[0])
    ensures ParseTrimmed(sign + d + rest) == Some(if sign == "-" then -(DigitsValue(d) as int) else DigitsValue(d))
  {
    var t := sign + d + rest;
    DigitPrefixOfDigits(d, rest);
    if sign == [] {
      assert t == d + rest;
      assert !(t[0] == '-' || t[0] == '+') by { assert t[0] == d[0] && IsDigit(d[0]); }
    } else {
      assert t[1..] == d + rest;
    }
  }

  /** Round trip: parsing the decimal numeral of any integer gives that
      integer back, whatever non-digit text follows the numeral. */
  lemma ParseIntOfDecimal(n: int, rest: string)
    requires rest == [] || !IsDigit(rest[0])
    ensures ParseInt(SignedDecimal(n) + rest) == Some(n)
  {
    var m: nat := if n < 0 then -n else n;
    var sign := if n < 0 then "-" else "";
    DecimalValue(m);
    assert SignedDecimal(n) + rest == sign + Decimal(m) + rest;
    ParseTrimmedDigits(sign, Decimal(m), rest);
    var t := sign + Decimal(m) + rest;
    assert t[0] == '-' || IsDigit(t[0]);
    TrimStartNoop(t);
  }

  lemma TrimStartNoop(t: string)
    requires t == [] || !IsJsWhitespace(t[0])
    ensures TrimStart(t) == t
  {
  }

  lemma {:induction false} TrimStartSkips(w: string, s: string)
    requires AllWhitespace(w)
    ensures TrimStart(w + s) == TrimStart(s)
  {
    if w != [] {
      assert (w + s)[0] == w[0] && IsJsWhitespace(w[0]);
      assert (w + s)[1..] == w[1..] + s;
      TrimStartSkips(w[1..], s);
    } else {
      assert w + s == s;
    }
  }

  /** Leading whitespace never changes the result. */
  lemma ParseIntSkipsWhitespace(w: string, s: string)
    requires AllWhitespace(w)
    ensures ParseInt(w + s) == ParseInt(s)
  {
    TrimStartSkips(w, s);
  }

  /** NaN when, after the whitespace and at most one sign, no digit follows. */
  lemma ParseIntNaN(w: string, sign: string, rest: string)
    requires AllWhitespace(w) && (sign == [] || sign == "-" || sign == "+")
    requires rest == [] || !IsDigit(rest[0])
    requires sign == [] && rest != [] ==> !IsJsWhitespace(rest[0]) && rest[0] != '-' && rest[0] != '+'
    ensures ParseInt(w + sign + rest) == None
  {
    var t := sign + rest;
    assert w + sign + rest == w + t;
    TrimStartSkips(w, t);
    if sign != [] {
      assert t[0] == sign[0] && t[1..] == rest;
    }
    TrimStartNoop(t);
  }
}
