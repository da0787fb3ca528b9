/**
 * The prototype parsers of `main.py`: the three-kind table, and parsers
 * that report a bare error kind with no source line. Its address parser
 * knows no labels, so an address must be a literal.
 */
module Prototype {
  import opened Diagnostics
  import opened Text
  import opened IntLiteral
  import opened Packing
  import Operands
  import L = LegacyHardwareDefinition
  import LegacyAssembler

  /** `max_reg`, `max_immediate` and `max_address`: 15, 1023 and 1023. */
  lemma Maxima()
    ensures Operands.MaxValue(L.ParamSize(L.Register)) == 15
    ensures Operands.MaxValue(L.ParamSize(L.Immediate)) == 1023
    ensures Operands.MaxValue(L.ParamSize(L.Address)) == 1023
  {
    Pow2Small();
    Pow2Medium();
  }

  /** `parse_op`: the stripped, upper-cased mnemonic must be a key of the table. */
  function ParseOp(token: string): (r: Result<L.InstructionInfo, ErrorKind>)
    ensures r.Ok? <==> ToUpper(Strip(token)) in L.INSTRUCTIONS
    ensures r.Ok? ==> r.value == L.INSTRUCTIONS[ToUpper(Strip(token))]
    ensures r.Err? ==> r.error == UnknownInstruction
  {
    var instr := ToUpper(Strip(token));
    if instr !in L.INSTRUCTIONS then Err(UnknownInstruction) else Ok(L.INSTRUCTIONS[instr])
  }

  /** The prototype looks mnemonics up as the first assembler does, and fails on the same tokens. */
  lemma ParseOpAsLegacy(token: string, line: nat)
    ensures ParseOp(token).Ok? <==> LegacyAssembler.ParseOp(token, line).Ok?
    ensures ParseOp(token).Ok? ==> ParseOp(token).value == LegacyAssembler.ParseOp(token, line).value
    ensures ParseOp(token).Err? ==> LegacyAssembler.ParseOp(token, line).error.kind == ParseOp(token).error
  {
  }

  /** `parse_register`: `R` or `r` and decimal digits, once stripped, naming one of registers 0 to 15. */
  function ParseRegister(token: string): (r: Result<nat, ErrorKind>)
    ensures r.Ok? <==> Operands.IsRegisterSyntax(Strip(token)) && Operands.RegisterNumber(Strip(token)) <= 15
    ensures r.Ok? ==> r.value == Operands.RegisterNumber(Strip(token))
    ensures !Operands.IsRegisterSyntax(Strip(token)) ==> r == Err(InvalidSyntax(Register))
    ensures Operands.IsRegisterSyntax(Strip(token)) && r.Err? ==> r == Err(OutOfRange(Register, 15))
  {
    Maxima();
    Operands.ParseRegister(L.ParamSize(L.Register), token)
  }

  /**
   * `parse_immediate`: an integer literal in `int(token, 0)` syntax with a
   * value from 0 to 1023. A token `int` rejects is a failure of its own.
   */
  function ParseImmediate(token: string): (r: Result<nat, ErrorKind>)
    ensures r.Ok? <==> ParseInt(token).Some? && 0 <= ParseInt(token).value <= 1023
    ensures r.Ok? ==> r.value == ParseInt(token).value
    ensures ParseInt(token).None? ==> r == Err(InvalidSyntax(Immediate))
    ensures ParseInt(token).Some? && r.Err? ==> r == Err(OutOfRange(Immediate, 1023))
  {
    Maxima();
    Operands.ParseLiteral(Immediate, L.ParamSize(L.Immediate), token)
  }

  /**
   * `parse_address`: a literal only, with a value from 0 to 1023; there is
   * no label table.
   */
  function ParseAddress(token: string): (r: Result<nat, ErrorKind>)
    ensures r.Ok? <==> ParseInt(token).Some? && 0 <= ParseInt(token).value <= 1023
    ensures r.Ok? ==> r.value == ParseInt(token).value
    ensures ParseInt(token).None? ==> r == Err(InvalidSyntax(Address))
    ensures ParseInt(token).Some? && r.Err? ==> r == Err(OutOfRange(Address, 1023))
  {
    Maxima();
    Operands.ParseLiteral(Address, L.ParamSize(L.Address), token)
  }

  /**
   * The prototype's address parser is the later one given an empty label
   * table; given labels, the later one also reads a token that names a
   * label, where the prototype rejects any token that is not a literal.
   */
  lemma AddressWithoutLabels(token: string, labels: map<string, nat>)
    ensures ParseAddress(token) == Operands.ParseAddress(10, token, map[])
    ensures token !in labels ==> ParseAddress(token) == Operands.ParseAddress(10, token, labels)
    ensures ParseInt(token).None? ==> ParseAddress(token).Err?
    ensures ParseInt(token).None? && token in labels && labels[token] <= 1023 ==>
      Operands.ParseAddress(10, token, labels) == Ok(labels[token])
  {
    Maxima();
  }

  /** A register written `R<n>` by `str` parses back to `n` exactly when `n` is at most 15. */
  lemma RegisterRoundTrip(n: nat)
    ensures ParseRegister(['R'] + DecimalText(n)) == if n <= 15 then Ok(n) else Err(OutOfRange(Register, 15))
  {
    Maxima();
    Operands.RegisterRoundTrip(L.ParamSize(L.Register), 'R', n);
  }
}
