/**
 * Integer literals as Python's `int(token, 0)` reads them ("auto-detect
 * binary/hex"): surrounding whitespace, an optional sign, then either a
 * `0x`/`0o`/`0b` prefix (either case) followed by at least one digit of that
 * base, or a decimal numeral with no leading zero (a run of zeros is allowed).
 */
module IntLiteral {
  import opened Diagnostics
  import opened Text

  predicate IsHexDigit(c: char) {
    ('0' <= c <= '9') || ('a' <= c <= 'f') || ('A' <= c <= 'F')
  }

  /** The value of a hexadecimal (or lower-base) digit character. */
  function DigitValue(c: char): (d: nat)
    requires IsHexDigit(c)
    ensures d < 16
  {
    if '0' <= c <= '9' then c as int - '0' as int
    else if 'a' <= c <= 'f' then c as int - 'a' as int + 10
    else c as int - 'A' as int + 10
  }

  predicate IsDigitOf(c: char, base: nat) {
    IsHexDigit(c) && DigitValue(c) < base
  }

  predicate AllDigitsOf(s: string, base: nat) {
    forall k :: 0 <= k < |s| ==> IsDigitOf(s[k], base)
  }

  /** The value of a numeral, most significant digit first. */
  function DigitsValue(s: string, base: nat): nat
    requires AllDigitsOf(s, base)
  {
    if |s| == 0 then 0
    else DigitsValue(s[..|s| - 1], base) * base + DigitValue(s[|s| - 1])
  }

  /** A non-empty run of digits of `base`, and its value. */
  function Digits(s: string, base: nat): Option<nat> {
    if |s| >= 1 && AllDigitsOf(s, base) then Some(DigitsValue(s, base)) else None
  }

  /** The literal after its sign. */
  function ParseUnsigned(s: string): Option<nat> {
    if |s| >= 2 && s[0] == '0' && (s[1] == 'x' || s[1] == 'X') then Digits(s[2..], 16)
    else if |s| >= 2 && s[0] == '0' && (s[1] == 'o' || s[1] == 'O') then Digits(s[2..], 8)
    else if |s| >= 2 && s[0] == '0' && (s[1] == 'b' || s[1] == 'B') then Digits(s[2..], 2)
    else if |s| >= 1 && AllDigitsOf(s, 10) && (s[0] != '0' || forall k :: 0 <= k < |s| ==> s[k] == '0') then
      Some(DigitsValue(s, 10))
    else None
  }

  /** A literal with its sign and without surrounding whitespace. */
  function ParseSigned(t: string): Option<int> {
    var signed := |t| >= 1 && (t[0] == '-' || t[0] == '+');
    match ParseUnsigned(if signed then t[1..] else t)
    case Some(v) => if signed && t[0] == '-' then Some(-(v as int)) else Some(v)
    case None => None
  }

  /** `int(s, 0)`: `None` where Python raises `ValueError`. */
  function ParseInt(s: string): Option<int> {
    ParseSigned(Strip(s))
  }

  function DecimalDigit(d: nat): (c: char)
    requires d < 10
    ensures IsDigitOf(c, 10) && DigitValue(c) == d
  {
    ('0' as int + d) as char
  }

  /** The canonical decimal numeral of `n`, as `str(n)` writes it. */
  function DecimalText(n: nat): (s: string)
    ensures |s| >= 1 && AllDigitsOf(s, 10)
    ensures s[0] != '0' || n == 0
  {
    if n < 10 then [DecimalDigit(n)] else DecimalText(n / 10) + [DecimalDigit(n % 10)]
  }

  lemma {:induction false} DecimalTextValue(n: nat)
    ensures DigitsValue(DecimalText(n), 10) == n
  {
    var s := DecimalText(n);
    if n >= 10 {
      DecimalTextValue(n / 10);
      assert s[..|s| - 1] == DecimalText(n / 10);
    }
  }

  lemma DecimalTextNoSpace(n: nat)
    ensures NoSpace(DecimalText(n))
  {
    var s := DecimalText(n);
    forall k | 0 <= k < |s| ensures !IsSpace(s[k]) {
      assert IsDigitOf(s[k], 10);
    }
  }

  /** A decimal numeral holds neither whitespace nor commas, so it is one operand token. */
  lemma DecimalTextNoSeparator(n: nat)
    ensures NoSeparator(DecimalText(n))
  {
    var s := DecimalText(n);
    forall k | 0 <= k < |s| ensures !IsSeparator(s[k]) {
      assert IsDigitOf(s[k], 10);
    }
  }

  /** A canonical decimal numeral is read as a plain decimal, not as a prefixed one. */
  lemma DecimalTextUnsigned(n: nat)
    ensures ParseUnsigned(DecimalText(n)) == Some(n)
  {
    var s := DecimalText(n);
    DecimalTextValue(n);
    if n == 0 {
      assert s == "0";
    } else {
      assert s[0] != '0';
    }
  }

  lemma DecimalTextStripped(n: nat)
    ensures Strip(DecimalText(n)) == DecimalText(n)
  {
    DecimalTextNoSpace(n);
    StripNoSpace(DecimalText(n));
  }

  lemma DecimalTextSigned(n: nat)
    ensures ParseSigned(DecimalText(n)) == Some(n)
  {
    DecimalTextUnsigned(n);
    assert IsDigitOf(DecimalText(n)[0], 10);
  }

  /** `int(str(n), 0) == n`: every decimal numeral that `str` writes reads back as itself. */
  lemma DecimalRoundTrip(n: nat)
    ensures ParseInt(DecimalText(n)) == Some(n)
  {
    DecimalTextStripped(n);
    DecimalTextSigned(n);
  }

  lemma NegativeDecimalStripped(n: nat)
    ensures Strip("-" + DecimalText(n)) == "-" + DecimalText(n)
  {
    var s := DecimalText(n);
    DecimalTextNoSpace(n);
    assert NoSpace("-" + s) by {
      forall k | 0 <= k < |"-" + s| ensures !IsSpace(("-" + s)[k]) {
        if k > 0 { assert ("-" + s)[k] == s[k - 1]; }
      }
    }
    StripNoSpace("-" + s);
  }

  lemma NegativeDecimalSigned(n: nat)
    ensures ParseSigned("-" + DecimalText(n)) == Some(-(n as int))
  {
    assert ("-" + DecimalText(n))[1..] == DecimalText(n);
    DecimalTextUnsigned(n);
  }

  /** `int("-" + str(n), 0) == -n`. */
  lemma NegativeDecimalRoundTrip(n: nat)
    ensures ParseInt("-" + DecimalText(n)) == Some(-(n as int))
  {
    NegativeDecimalStripped(n);
    NegativeDecimalSigned(n);
  }
}
