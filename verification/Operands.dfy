/**
 * The operand parsers of the assembler, generic over the bit width of the
 * field they fill: registers `R<digits>`, integer literals (immediates and
 * `DAT` values) and addresses (a label, else a literal). Each returns the
 * value to be shifted into the instruction word, or the error kind the
 * assembler raises for it.
 */
module Operands {
  import opened Diagnostics
  import opened Text
  import opened IntLiteral
  import opened Packing

  /** `(1 << width) - 1`, the largest value a field of `width` bits holds. */
  function MaxValue(width: nat): (m: nat)
    ensures m + 1 == Pow2(width)
  {
    Pow2(width) - 1
  }

  /** `re.fullmatch(r"R(\d+)", t, re.IGNORECASE)`. */
  predicate IsRegisterSyntax(t: string) {
    |t| >= 2 && (t[0] == 'R' || t[0] == 'r') && AllDigitsOf(t[1..], 10)
  }

  /** `int(match.group(1))`: the decimal value of the digits, leading zeros allowed. */
  function RegisterNumber(t: string): nat
    requires IsRegisterSyntax(t)
  {
    DigitsValue(t[1..], 10)
  }

  /**
   * A register operand: the stripped token must be `R` or `r` followed by
   * decimal digits, and their value must fit the register field.
   */
  function ParseRegister(width: nat, token: string): (r: Result<nat, ErrorKind>)
    ensures r.Ok? <==> IsRegisterSyntax(Strip(token)) && RegisterNumber(Strip(token)) < Pow2(width)
    ensures r.Ok? ==> r.value == RegisterNumber(Strip(token))
    ensures !IsRegisterSyntax(Strip(token)) ==> r == Err(InvalidSyntax(Register))
    ensures IsRegisterSyntax(Strip(token)) && r.Err? ==> r.error == OutOfRange(Register, MaxValue(width))
  {
    var t := Strip(token);
    if !IsRegisterSyntax(t) then Err(InvalidSyntax(Register))
    else if RegisterNumber(t) <= MaxValue(width) then Ok(RegisterNumber(t))
    else Err(OutOfRange(Register, MaxValue(width)))
  }

  /** The range check `0 <= val <= max` shared by every literal-valued operand. */
  function RangeChecked(operand: Operand, width: nat, val: int): (r: Result<nat, ErrorKind>)
    ensures r.Ok? <==> 0 <= val < Pow2(width)
    ensures r.Ok? ==> r.value == val
    ensures r.Err? ==> r.error == OutOfRange(operand, MaxValue(width))
  {
    if 0 <= val <= MaxValue(width) then Ok(val as nat) else Err(OutOfRange(operand, MaxValue(width)))
  }

  /**
   * A literal operand, `int(token, 0)` followed by the range check; the
   * shape of `parse_immediate` and of `data_instr`.
   */
  function ParseLiteral(operand: Operand, width: nat, token: string): (r: Result<nat, ErrorKind>)
    ensures r.Ok? <==> ParseInt(token).Some? && 0 <= ParseInt(token).value < Pow2(width)
    ensures r.Ok? ==> r.value == ParseInt(token).value
    ensures ParseInt(token).None? ==> r == Err(InvalidSyntax(operand))
    ensures ParseInt(token).Some? && r.Err? ==> r.error == OutOfRange(operand, MaxValue(width))
  {
    match ParseInt(token)
    case None => Err(InvalidSyntax(operand))
    case Some(val) => RangeChecked(operand, width, val)
  }

  function ParseImmediate(width: nat, token: string): (r: Result<nat, ErrorKind>)
    ensures r.Ok? <==> ParseInt(token).Some? && 0 <= ParseInt(token).value < Pow2(width)
    ensures r.Ok? ==> r.value == ParseInt(token).value
    ensures ParseInt(token).None? ==> r == Err(InvalidSyntax(Immediate))
    ensures ParseInt(token).Some? && r.Err? ==> r.error == OutOfRange(Immediate, MaxValue(width))
  {
    ParseLiteral(Immediate, width, token)
  }

  /**
   * An address operand: the token is looked up as a label first and read as
   * a literal only when it is not one; either value must fit the field.
   */
  function ParseAddress(width: nat, token: string, labels: map<string, nat>): (r: Result<nat, ErrorKind>)
    ensures token in labels ==> (r.Ok? <==> labels[token] < Pow2(width))
    ensures token in labels && r.Ok? ==> r.value == labels[token]
    ensures token in labels && r.Err? ==> r.error == OutOfRange(Address, MaxValue(width))
    ensures token !in labels ==> r == ParseLiteral(Address, width, token)
  {
    if token in labels then RangeChecked(Address, width, labels[token])
    else ParseLiteral(Address, width, token)
  }

  /** `R<n>` and `r<n>` with `n` written by `str` parse back to `n` exactly when `n` fits the field. */
  lemma RegisterRoundTrip(width: nat, prefix: char, n: nat)
    requires prefix == 'R' || prefix == 'r'
    ensures ParseRegister(width, [prefix] + DecimalText(n)) ==
      if n < Pow2(width) then Ok(n) else Err(OutOfRange(Register, MaxValue(width)))
  {
    var s := DecimalText(n);
    var t := [prefix] + s;
    DecimalTextNoSpace(n);
    assert NoSpace(t) by {
      forall k | 0 <= k < |t| ensures !IsSpace(t[k]) {
        if k > 0 { assert t[k] == s[k - 1]; }
      }
    }
    StripNoSpace(t);
    assert t[1..] == s;
    DecimalTextValue(n);
  }

  /** A register letter followed by decimal digits has no space to strip. */
  lemma PrefixedDecimalStripped(prefix: char, n: nat)
    requires prefix == 'R' || prefix == 'r'
    ensures NoSpace([prefix] + DecimalText(n))
    ensures Strip([prefix] + DecimalText(n)) == [prefix] + DecimalText(n)
  {
    var s := DecimalText(n);
    var t := [prefix] + s;
    DecimalTextNoSpace(n);
    assert NoSpace(t) by {
      forall k | 0 <= k < |t| ensures !IsSpace(t[k]) {
        if k > 0 { assert t[k] == s[k - 1]; }
      }
    }
    StripNoSpace(t);
  }

  /** A register number may carry leading zeros: `R007` is register 7. */
  lemma RegisterLeadingZeros(width: nat)
    requires width >= 3
    ensures ParseRegister(width, "R007") == Ok(7)
  {
    var t := "R007";
    StripNoSpace(t);
    assert IsRegisterSyntax(t);
    assert t[1..] == "007";
    assert DigitsValue("007", 10) == 7 by {
      assert "007"[..2] == "00" && "00"[..1] == "0" && "0"[..0] == "";
    }
    assert Pow2(3) == 8;
    if width > 3 {
      Pow2Add(3, width - 3);
    }
  }

  /** Decimal literals written by `str` parse back exactly when they fit the field. */
  lemma ImmediateRoundTrip(width: nat, n: nat)
    ensures ParseImmediate(width, DecimalText(n)) ==
      if n < Pow2(width) then Ok(n) else Err(OutOfRange(Immediate, MaxValue(width)))
  {
    DecimalRoundTrip(n);
  }

  /** Negative literals are well-formed but always out of range. */
  lemma ImmediateRejectsNegative(width: nat, n: nat)
    requires n >= 1
    ensures ParseImmediate(width, "-" + DecimalText(n)) == Err(OutOfRange(Immediate, MaxValue(width)))
  {
    NegativeDecimalRoundTrip(n);
  }

  /** A decimal address that is not also a label's name reads as itself exactly when it fits the field. */
  lemma AddressRoundTrip(width: nat, n: nat, labels: map<string, nat>)
    requires DecimalText(n) !in labels
    ensures ParseAddress(width, DecimalText(n), labels) ==
      if n < Pow2(width) then Ok(n) else Err(OutOfRange(Address, MaxValue(width)))
  {
    DecimalRoundTrip(n);
  }

  /** How a field's token is read: as a register, as a literal, or as a label or literal address. */
  datatype Category = RegisterField | ImmediateField | AddressField

  /** One operand field of an instruction layout: how it is read and how many bits it takes. */
  datatype Slot = Slot(category: Category, width: nat)

  /** The operand parser a field's kind selects, the `match ptype` of `assemble_line`. */
  function ParseField(slot: Slot, token: string, labels: map<string, nat>): (r: Result<nat, ErrorKind>)
    ensures r.Ok? ==> r.value < Pow2(slot.width)
  {
    match slot.category
    case RegisterField => ParseRegister(slot.width, token)
    case ImmediateField => ParseImmediate(slot.width, token)
    case AddressField => ParseAddress(slot.width, token, labels)
  }

  /** The bit widths of a layout, in order. */
  function Widths(slots: seq<Slot>): (ws: seq<nat>)
    ensures |ws| == |slots|
    ensures forall k :: 0 <= k < |slots| ==> ws[k] == slots[k].width
  {
    seq(|slots|, k requires 0 <= k < |slots| => slots[k].width)
  }
}
