/**
 * Pseudo-instructions: mnemonics the assembler handles itself instead of
 * looking them up in the opcode table. The only one is `DAT`, which emits
 * its operand, a literal, as a raw instruction word.
 */
module AssemblerInstructions {
  import opened Diagnostics
  import opened Packing
  import opened IntLiteral
  import opened Operands
  import HardwareDefinition

  /** The handler a pseudo-instruction runs. */
  datatype Handler = DataHandler

  datatype PseudoInstruction = PseudoInstruction(handler: Handler) {
    /**
     * The number of assembly operands the handler takes: its parameters
     * other than the line number, which the assembler supplies itself.
     */
    function ExpectedParameters(): (n: nat)
      ensures handler == DataHandler ==> n == 1
    {
      match handler
      case DataHandler => 1
    }
  }

  /**
   * `data_instr`: the literal is the word itself, with no opcode and no
   * shift; it must be a valid literal and fit the instruction word.
   */
  function DataInstr(data: string, line: nat): (r: Result<nat, AssemblyError>)
    ensures r.Ok? <==> ParseInt(data).Some? && 0 <= ParseInt(data).value < Pow2(HardwareDefinition.INSTRUCTION_SIZE)
    ensures r.Ok? ==> r.value == ParseInt(data).value
    ensures ParseInt(data).None? ==> r == Err(AssemblyError(InvalidSyntax(DataValue), line, Some(data)))
    ensures ParseInt(data).Some? && r.Err? ==>
      r == Err(AssemblyError(OutOfRange(DataValue, MaxValue(HardwareDefinition.INSTRUCTION_SIZE)), line, Some(data)))
  {
    Located(ParseLiteral(DataValue, HardwareDefinition.INSTRUCTION_SIZE, data), line, data)
  }

  /** Runs a pseudo-instruction on its operand tokens. */
  function Apply(p: PseudoInstruction, params: seq<string>, line: nat): (r: Result<nat, AssemblyError>)
    requires |params| == p.ExpectedParameters()
    ensures r.Ok? ==> r.value < Pow2(HardwareDefinition.INSTRUCTION_SIZE)
  {
    match p.handler
    case DataHandler => DataInstr(params[0], line)
  }

  const ASSEMBLER_PSEUDO_INSTRUCTIONS: map<string, PseudoInstruction> := map["DAT" := PseudoInstruction(DataHandler)]

  /** `DAT n` emits `n` itself for every `n` below 2^31 written in decimal, and rejects `n` from 2^31 on. */
  lemma DataRoundTrip(n: nat, line: nat)
    ensures DataInstr(DecimalText(n), line) ==
      if n < 0x8000_0000 then Ok(n)
      else Err(AssemblyError(OutOfRange(DataValue, 0x7FFF_FFFF), line, Some(DecimalText(n))))
  {
    DecimalRoundTrip(n);
    Pow2Large();
  }

  /** A negative `DAT` value is rejected as out of range, naming the token. */
  lemma DataRejectsNegative(n: nat, line: nat)
    requires n >= 1
    ensures DataInstr("-" + DecimalText(n), line) ==
      Err(AssemblyError(OutOfRange(DataValue, 0x7FFF_FFFF), line, Some("-" + DecimalText(n))))
  {
    NegativeDecimalRoundTrip(n);
    Pow2Large();
  }

  /** `DAT` is the only pseudo-instruction, it takes one operand, and it is not also an opcode mnemonic. */
  lemma PseudoInstructionTable()
    ensures ASSEMBLER_PSEUDO_INSTRUCTIONS.Keys == {"DAT"}
    ensures ASSEMBLER_PSEUDO_INSTRUCTIONS["DAT"].ExpectedParameters() == 1
    ensures "DAT" !in HardwareDefinition.INSTRUCTIONS
  {
  }
}
