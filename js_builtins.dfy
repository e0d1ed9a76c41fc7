/**
 * The few ECMAScript built-ins the conversation logic relies on, stated on
 * sequences of characters: `String.prototype.trim`, `toLowerCase` (on the
 * letters whose case matters for the literals the bot compares against),
 * `parseInt(s, 10)` and `String(n)` for a natural number.
 */
module JsBuiltins {
  import opened Wrappers

  /** ECMAScript WhiteSpace and LineTerminator code points: what `trim()` strips and `parseInt` skips. */
  predicate IsSpace(c: char) {
    || c == '\t' || c == '\n' || c == '\U{000B}' || c == '\U{000C}' || c == '\r' || c == ' '
    || c == '\U{00A0}' || c == '\U{1680}' || ('\U{2000}' <= c <= '\U{200A}')
    || c == '\U{2028}' || c == '\U{2029}' || c == '\U{202F}' || c == '\U{205F}'
    || c == '\U{3000}' || c == '\U{FEFF}'
  }

  predicate IsDigit(c: char) {
    '0' <= c <= '9'
  }

  predicate AllSpaces(s: string) {
    forall i :: 0 <= i < |s| ==> IsSpace(s[i])
  }

  predicate AllDigits(s: string) {
    forall i :: 0 <= i < |s| ==> IsDigit(s[i])
  }

  /** Drops the leading white space (see TrimStartShape). */
  function TrimStart(s: string): string
  {
    if s != [] && IsSpace(s[0]) then TrimStart(s[1..]) else s
  }

  /** Drops the trailing white space (see TrimEndShape). */
  function TrimEnd(s: string): string
  {
    if s != [] && IsSpace(s[|s| - 1]) then TrimEnd(s[..|s| - 1]) else s
  }

  /** TrimStart keeps the suffix of `s` that starts at its first non-space character. */
  lemma {:induction false} TrimStartShape(s: string)
    ensures |TrimStart(s)| <= |s| && TrimStart(s) == s[|s| - |TrimStart(s)|..]
    ensures AllSpaces(s[..|s| - |TrimStart(s)|])
    ensures TrimStart(s) == [] || !IsSpace(TrimStart(s)[0])
    decreases |s|
  {
    if s != [] && IsSpace(s[0]) {
      TrimStartShape(s[1..]);
      var r := TrimStart(s[1..]);
      assert s[..|s| - |r|] == [s[0]] + s[1..][..|s| - 1 - |r|];
    }
  }

  /** TrimEnd keeps the prefix of `s` that ends at its last non-space character. */
  lemma {:induction false} TrimEndShape(s: string)
    ensures |TrimEnd(s)| <= |s| && TrimEnd(s) == s[..|TrimEnd(s)|]
    ensures AllSpaces(s[|TrimEnd(s)|..])
    ensures TrimEnd(s) == [] || !IsSpace(TrimEnd(s)[|TrimEnd(s)| - 1])
    decreases |s|
  {
    if s != [] && IsSpace(s[|s| - 1]) {
      TrimEndShape(s[..|s| - 1]);
      var r := TrimEnd(s[..|s| - 1]);
      assert s[|r|..] == s[..|s| - 1][|r|..] + [s[|s| - 1]];
    }
  }

  /** `s.trim()`. */
  function Trim(s: string): string {
    TrimEnd(TrimStart(s))
  }

  /**
   * Lower-cases one character. Only 'A'..'Z' are mapped. The bot lower-cases
   * input only to compare it with "menu", "hi", "hello", "language", "none"
   * and Arabic words; no other character lower-cases to a character of those
   * literals, so the comparisons come out as with the full Unicode mapping.
   */
  function LowerChar(c: char): char {
    if 'A' <= c <= 'Z' then (c as int + ('a' as int - 'A' as int)) as char else c
  }

  /** `s.toLowerCase()` on the characters that matter here (see LowerChar). */
  function ToLowerCase(s: string): string {
    seq(|s|, i requires 0 <= i < |s| => LowerChar(s[i]))
  }

  /** The longest prefix of `s` made of decimal digits. */
  function DigitPrefix(s: string): (r: string)
    ensures |r| <= |s| && r == s[..|r|] && AllDigits(r)
    ensures |r| == |s| || !IsDigit(s[|r|])
  {
    if s != [] && IsDigit(s[0]) then
      var r := DigitPrefix(s[1..]);
      assert [s[0]] + r == s[..1 + |r|];
      [s[0]] + r
    else
      []
  }

  function DigitValue(c: char): nat
    requires IsDigit(c)
  {
    c as int - '0' as int
  }

  function DigitChar(d: nat): (c: char)
    requires d < 10
    ensures IsDigit(c) && DigitValue(c) == d
  {
    ('0' as int + d) as char
  }

  /** The value of a string of decimal digits, most significant digit first. */
  function DecimalValue(ds: string): nat
    requires AllDigits(ds)
  {
    if ds == [] then 0 else DecimalValue(ds[..|ds| - 1]) * 10 + DigitValue(ds[|ds| - 1])
  }

  /**
   * `parseInt(s, 10)`: skip leading white space, read an optional sign, then the
   * longest run of decimal digits. No digit at all gives NaN, written None.
   * The result is the exact integer; the rounding of very long digit runs to
   * an IEEE double is not modelled.
   */
  function ParseInt(s: string): (r: Option<int>)
    ensures r.None? <==> DigitPrefix(Unsigned(TrimStart(s))) == []
    ensures r.Some? && !IsNegative(TrimStart(s)) ==> r.value == DecimalValue(DigitPrefix(Unsigned(TrimStart(s))))
    ensures r.Some? && IsNegative(TrimStart(s)) ==> r.value == -(DecimalValue(DigitPrefix(Unsigned(TrimStart(s)))) as int)
  {
    var t := TrimStart(s);
    var digits := DigitPrefix(Unsigned(t));
    if digits == [] then None
    else if IsNegative(t) then Some(-(DecimalValue(digits) as int))
    else Some(DecimalValue(digits))
  }

  predicate IsNegative(t: string) {
    t != [] && t[0] == '-'
  }

  /** What follows the optional sign character. */
  function Unsigned(t: string): (u: string)
    ensures u == t || (t != [] && (t[0] == '-' || t[0] == '+') && u == t[1..])
  {
    if t != [] && (t[0] == '-' || t[0] == '+') then t[1..] else t
  }

  /** `String(n)` for a natural number: its decimal digits, without leading zeros. */
  function NumberToString(n: nat): (r: string)
    ensures |r| >= 1 && AllDigits(r)
    ensures DecimalValue(r) == n
    ensures |r| > 1 ==> r[0] != '0'
    decreases n
  {
    if n < 10 then
      [DigitChar(n)]
    else
      var front := NumberToString(n / 10);
      var r := front + [DigitChar(n % 10)];
      assert r[..|r| - 1] == front;
      r
  }

  // ---------------------------------------------------------------------
  // Properties of parseInt
  // ---------------------------------------------------------------------

  lemma {:induction false} TrimStartOfSpaces(ws: string, t: string)
    requires AllSpaces(ws)
    requires t == [] || !IsSpace(t[0])
    ensures TrimStart(ws + t) == t
    decreases |ws|
  {
    if ws == [] {
      assert ws + t == t;
    } else {
      assert (ws + t)[1..] == ws[1..] + t;
      TrimStartOfSpaces(ws[1..], t);
    }
  }

  lemma {:induction false} TrimEndOfSpaces(t: string, ws: string)
    requires AllSpaces(ws)
    requires t == [] || !IsSpace(t[|t| - 1])
    ensures TrimEnd(t + ws) == t
    decreases |ws|
  {
    if ws == [] {
      assert t + ws == t;
    } else {
      assert (t + ws)[..|t + ws| - 1] == t + ws[..|ws| - 1];
      TrimEndOfSpaces(t, ws[..|ws| - 1]);
    }
  }

  /** `trim` removes exactly the white space around a word that starts and ends with a non-space. */
  lemma TrimPadded(ws1: string, w: string, ws2: string)
    requires AllSpaces(ws1) && AllSpaces(ws2)
    requires w != [] && !IsSpace(w[0]) && !IsSpace(w[|w| - 1])
    ensures Trim(ws1 + w + ws2) == w
  {
    assert ws1 + w + ws2 == ws1 + (w + ws2);
    TrimStartOfSpaces(ws1, w + ws2);
    TrimEndOfSpaces(w, ws2);
  }

  lemma {:induction false} DigitPrefixOf(ds: string, rest: string)
    requires AllDigits(ds)
    requires rest == [] || !IsDigit(rest[0])
    ensures DigitPrefix(ds + rest) == ds
    decreases |ds|
  {
    if ds == [] {
      assert ds + rest == rest;
    } else {
      assert (ds + rest)[1..] == ds[1..] + rest;
      DigitPrefixOf(ds[1..], rest);
    }
  }

  /** parseInt reads a run of digits after white space, up to the first non-digit. */
  lemma ParseIntOfDigits(ws: string, ds: string, rest: string)
    requires AllSpaces(ws) && AllDigits(ds) && ds != []
    requires rest == [] || !IsDigit(rest[0])
    ensures ParseInt(ws + ds + rest) == Some(DecimalValue(ds))
  {
    var t := ds + rest;
    assert ws + ds + rest == ws + t;
    assert t[0] == ds[0];
    TrimStartOfSpaces(ws, t);
    assert Unsigned(t) == t && !IsNegative(t);
    DigitPrefixOf(ds, rest);
    ParseIntOfUnsigned(ws + t, t, ds);
  }

  lemma ParseIntOfUnsigned(x: string, t: string, ds: string)
    requires TrimStart(x) == t && !IsNegative(t) && DigitPrefix(Unsigned(t)) == ds && ds != []
    ensures ParseInt(x) == Some(DecimalValue(ds))
  {
  }

  /** The same with a minus sign in front of the digits. */
  lemma ParseIntOfSignedDigits(ws: string, ds: string, rest: string)
    requires AllSpaces(ws) && AllDigits(ds) && ds != []
    requires rest == [] || !IsDigit(rest[0])
    ensures ParseInt(ws + ['-'] + ds + rest) == Some(-(DecimalValue(ds) as int))
  {
    var t := ['-'] + (ds + rest);
    Regroup(ws, ['-'], ds, rest);
    TrimStartOfSpaces(ws, t);
    NegativeDigits(t, ds, rest);
    ParseIntOfTrimmed(ws + t, t, ds);
  }

  lemma ParseIntOfTrimmed(x: string, t: string, ds: string)
    requires TrimStart(x) == t && IsNegative(t) && DigitPrefix(Unsigned(t)) == ds && ds != []
    ensures ParseInt(x) == Some(-(DecimalValue(ds) as int))
  {
  }

  lemma Regroup(a: string, b: string, c: string, d: string)
    ensures a + b + c + d == a + (b + (c + d))
  {
  }

  /**
   * parseInt reads back what String(n) writes, whatever white space precedes
   * it and whatever non-digit text follows it (so "3x" reads as 3).
   */
  lemma ParseIntOfNumber(ws: string, n: nat, rest: string)
    requires AllSpaces(ws)
    requires rest == [] || !IsDigit(rest[0])
    ensures ParseInt(ws + NumberToString(n) + rest) == Some(n)
  {
    var ds := NumberToString(n);
    ParseIntOfDigits(ws, ds, rest);
  }

  /** The same with a minus sign in front of the digits. */
  lemma ParseIntOfNegative(ws: string, n: nat, rest: string)
    requires AllSpaces(ws)
    requires rest == [] || !IsDigit(rest[0])
    ensures ParseInt(ws + ['-'] + NumberToString(n) + rest) == Some(-(n as int))
  {
    var ds := NumberToString(n);
    ParseIntOfSignedDigits(ws, ds, rest);
  }

  lemma NegativeDigits(t: string, ds: string, rest: string)
    requires AllDigits(ds)
    requires rest == [] || !IsDigit(rest[0])
    requires t == ['-'] + (ds + rest)
    ensures IsNegative(t) && DigitPrefix(Unsigned(t)) == ds
  {
    assert t[1..] == ds + rest;
    DigitPrefixOf(ds, rest);
  }

  /** String(n) round-trips through parseInt. */
  lemma ParseIntRoundTrip(n: nat)
    ensures ParseInt(NumberToString(n)) == Some(n)
  {
    var ds := NumberToString(n);
    assert [] + ds + [] == ds;
    ParseIntOfDigits([], ds, []);
  }

  /** NaN exactly when no digit follows the white space and the optional sign. */
  lemma ParseIntNaN(s: string)
    ensures ParseInt(s).None? <==>
      (var u := Unsigned(TrimStart(s)); u == [] || !IsDigit(u[0]))
  {
  }

  /** A sign as parseInt reads it: none, '+' or '-'. */
  predicate IsSign(sign: string) {
    sign == "" || sign == "+" || sign == "-"
  }

  /** The number a sign and a run of digits denote. */
  function SignedValue(sign: string, ds: string): int
    requires AllDigits(ds)
  {
    if sign == "-" then -(DecimalValue(ds) as int) else DecimalValue(ds)
  }

  /**
   * Any text made of white space, an optional sign, at least one digit and
   * then text that does not start with a digit parses to the signed value
   * of those digits.
   */
  lemma ParseIntOfParts(ws: string, sign: string, ds: string, rest: string)
    requires AllSpaces(ws) && IsSign(sign) && AllDigits(ds) && ds != []
    requires rest == [] || !IsDigit(rest[0])
    ensures ParseInt(ws + sign + ds + rest) == Some(SignedValue(sign, ds))
  {
    var t := sign + (ds + rest);
    Regroup(ws, sign, ds, rest);
    assert t[0] == if sign == "" then ds[0] else sign[0];
    TrimStartOfSpaces(ws, t);
    if sign == "" {
      assert t == ds + rest;
    } else {
      assert t[1..] == ds + rest;
    }
    assert Unsigned(t) == ds + rest;
    DigitPrefixOf(ds, rest);
  }

  /** Conversely, every number parseInt returns is read from such a text. */
  lemma ParseIntParts(s: string) returns (ws: string, sign: string, ds: string, rest: string)
    requires ParseInt(s).Some?
    ensures s == ws + sign + ds + rest
    ensures AllSpaces(ws) && IsSign(sign) && AllDigits(ds) && ds != []
    ensures rest == [] || !IsDigit(rest[0])
    ensures ParseInt(s) == Some(SignedValue(sign, ds))
  {
    TrimStartShape(s);
    var t := TrimStart(s);
    ws := s[..|s| - |t|];
    var signed := t != [] && (t[0] == '-' || t[0] == '+');
    sign := if signed then [t[0]] else "";
    var u := Unsigned(t);
    assert t == sign + u by {
      if signed {
        assert t == [t[0]] + t[1..];
      }
    }
    ds := DigitPrefix(u);
    rest := u[|ds|..];
    SplitAt(u, |ds|);
    SplitAt(s, |s| - |t|);
    Regroup(ws, sign, ds, rest);
  }

  lemma SplitAt(x: string, k: nat)
    requires k <= |x|
    ensures x == x[..k] + x[k..]
  {
  }

  /** A leading '+' is read and dropped: "+3" is 3. */
  lemma ParseIntPlusThree()
    ensures ParseInt("+3") == Some(3)
  {
    ParseIntOfParts("", "+", "3", "");
    assert "" + "+" + "3" + "" == "+3";
  }
}
