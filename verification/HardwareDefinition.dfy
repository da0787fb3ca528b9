/**
 * The facPU instruction set as the assembler sees it: a 7-bit opcode, five
 * operand kinds with their field widths, a 31-bit instruction word and the
 * mnemonic table giving each instruction's opcode and ordered operand kinds.
 */
module HardwareDefinition {
  import opened Packing
  import opened Operands

  datatype ParamType = Reg | Imm4 | Imm8 | Imm10 | Addr

  datatype InstructionInfo = InstructionInfo(opcode: nat, params: seq<ParamType>)

  const OPCODE_SIZE: nat := 7
  const INSTRUCTION_SIZE: nat := 31

  /** `PARAM_SIZE`: the field width of each operand kind. */
  function ParamSize(t: ParamType): nat {
    match t
    case Reg => 4
    case Imm4 => 4
    case Imm8 => 8
    case Imm10 => 10
    case Addr => 10
  }

  /** How `assemble_line` reads and packs an operand of each kind. */
  function SlotOf(t: ParamType): (slot: Slot)
    ensures slot.width == ParamSize(t)
    ensures slot.category == RegisterField <==> t == Reg
    ensures slot.category == AddressField <==> t == Addr
  {
    match t
    case Reg => Slot(RegisterField, ParamSize(t))
    case Addr => Slot(AddressField, ParamSize(t))
    case _ => Slot(ImmediateField, ParamSize(t))
  }

  function Layout(params: seq<ParamType>): (slots: seq<Slot>)
    ensures |slots| == |params|
    ensures forall k :: 0 <= k < |params| ==> slots[k] == SlotOf(params[k])
  {
    seq(|params|, k requires 0 <= k < |params| => SlotOf(params[k]))
  }

  const WORD_FORMAT: Format := Format(OPCODE_SIZE, INSTRUCTION_SIZE)

  const INSTRUCTIONS: map<string, InstructionInfo> := map[
    "MOV" := InstructionInfo(0x00, [Reg, Reg]),
    "LI" := InstructionInfo(0x01, [Reg, Imm10]),
    "LD" := InstructionInfo(0x02, [Reg, Addr]),
    "ST" := InstructionInfo(0x03, [Addr, Reg]),
    "LDR" := InstructionInfo(0x04, [Reg, Reg]),
    "STR" := InstructionInfo(0x05, [Reg, Reg]),
    "NOP" := InstructionInfo(0x08, []),
    "HLT" := InstructionInfo(0x09, []),
    "JMP" := InstructionInfo(0x10, [Addr]),
    "BEQ" := InstructionInfo(0x11, [Reg, Reg, Addr]),
    "BNE" := InstructionInfo(0x12, [Reg, Reg, Addr]),
    "BLT" := InstructionInfo(0x13, [Reg, Reg, Addr]),
    "BGT" := InstructionInfo(0x14, [Reg, Reg, Addr]),
    "BEQI" := InstructionInfo(0x15, [Reg, Imm10, Addr]),
    "BNEI" := InstructionInfo(0x16, [Reg, Imm10, Addr]),
    "BLTI" := InstructionInfo(0x17, [Reg, Imm10, Addr]),
    "BGTI" := InstructionInfo(0x18, [Reg, Imm10, Addr]),
    "CALL" := InstructionInfo(0x19, [Addr]),
    "RET" := InstructionInfo(0x1A, []),
    "ADD" := InstructionInfo(0x20, [Reg, Reg, Reg]),
    "SUB" := InstructionInfo(0x21, [Reg, Reg, Reg]),
    "MUL" := InstructionInfo(0x22, [Reg, Reg, Reg]),
    "DIV" := InstructionInfo(0x23, [Reg, Reg, Reg]),
    "MOD" := InstructionInfo(0x24, [Reg, Reg, Reg]),
    "POW" := InstructionInfo(0x25, [Reg, Reg, Reg]),
    "SHL" := InstructionInfo(0x26, [Reg, Reg, Reg]),
    "SHR" := InstructionInfo(0x27, [Reg, Reg, Reg]),
    "AND" := InstructionInfo(0x28, [Reg, Reg, Reg]),
    "OR" := InstructionInfo(0x29, [Reg, Reg, Reg]),
    "XOR" := InstructionInfo(0x2A, [Reg, Reg, Reg]),
    "ADDI" := InstructionInfo(0x30, [Reg, Reg, Imm10]),
    "SUBI" := InstructionInfo(0x31, [Reg, Reg, Imm10]),
    "MULI" := InstructionInfo(0x32, [Reg, Reg, Imm10]),
    "DIVI" := InstructionInfo(0x33, [Reg, Reg, Imm10]),
    "MODI" := InstructionInfo(0x34, [Reg, Reg, Imm10]),
    "POWI" := InstructionInfo(0x35, [Reg, Reg, Imm10]),
    "SHLI" := InstructionInfo(0x36, [Reg, Reg, Imm10]),
    "SHRI" := InstructionInfo(0x37, [Reg, Reg, Imm10]),
    "ANDI" := InstructionInfo(0x38, [Reg, Reg, Imm10]),
    "ORI" := InstructionInfo(0x39, [Reg, Reg, Imm10]),
    "XORI" := InstructionInfo(0x3A, [Reg, Reg, Imm10])
  ]

  /** The mnemonic of an opcode, or `""` for an unused one; the inverse of the table's opcode column. */
  function OpcodeName(op: nat): string {
    match op
    case 0x00 => "MOV" case 0x01 => "LI" case 0x02 => "LD" case 0x03 => "ST"
    case 0x04 => "LDR" case 0x05 => "STR" case 0x08 => "NOP" case 0x09 => "HLT"
    case 0x10 => "JMP" case 0x11 => "BEQ" case 0x12 => "BNE" case 0x13 => "BLT"
    case 0x14 => "BGT" case 0x15 => "BEQI" case 0x16 => "BNEI" case 0x17 => "BLTI"
    case 0x18 => "BGTI" case 0x19 => "CALL" case 0x1A => "RET" case 0x20 => "ADD"
    case 0x21 => "SUB" case 0x22 => "MUL" case 0x23 => "DIV" case 0x24 => "MOD"
    case 0x25 => "POW" case 0x26 => "SHL" case 0x27 => "SHR" case 0x28 => "AND"
    case 0x29 => "OR" case 0x2A => "XOR" case 0x30 => "ADDI" case 0x31 => "SUBI"
    case 0x32 => "MULI" case 0x33 => "DIVI" case 0x34 => "MODI" case 0x35 => "POWI"
    case 0x36 => "SHLI" case 0x37 => "SHRI" case 0x38 => "ANDI" case 0x39 => "ORI"
    case 0x3A => "XORI"
    case _ => ""
  }

  lemma Pow2Seven()
    ensures Pow2(OPCODE_SIZE) == 128
  {
    Pow2Medium();
  }

  /** Every opcode fits in the `OPCODE_SIZE` bits reserved for it. */
  lemma OpcodesFit()
    ensures forall name | name in INSTRUCTIONS :: INSTRUCTIONS[name].opcode < Pow2(OPCODE_SIZE)
  {
    Pow2Seven();
  }

  lemma OpcodeNameInverts()
    ensures forall name | name in INSTRUCTIONS :: OpcodeName(INSTRUCTIONS[name].opcode) == name
  {
    InvertsBelow();
    InvertsFrom();
  }

  lemma InvertsBelow()
    ensures forall name | name in INSTRUCTIONS && INSTRUCTIONS[name].opcode < 0x20 :: OpcodeName(INSTRUCTIONS[name].opcode) == name
  {
  }

  lemma InvertsFrom()
    ensures forall name | name in INSTRUCTIONS && INSTRUCTIONS[name].opcode >= 0x20 :: OpcodeName(INSTRUCTIONS[name].opcode) == name
  {
    InvertsArithmetic();
    InvertsImmediateArithmetic();
  }

  lemma InvertsArithmetic()
    ensures forall name | name in INSTRUCTIONS && 0x20 <= INSTRUCTIONS[name].opcode < 0x30 :: OpcodeName(INSTRUCTIONS[name].opcode) == name
  {
  }

  lemma InvertsImmediateArithmetic()
    ensures forall name | name in INSTRUCTIONS && INSTRUCTIONS[name].opcode >= 0x30 :: OpcodeName(INSTRUCTIONS[name].opcode) == name
  {
  }

  /** Every mnemonic `OpcodeName` produces is in the table with that opcode. */
  lemma OpcodeNameLookup()
    ensures forall op: nat | OpcodeName(op) != "" ::
      OpcodeName(op) in INSTRUCTIONS && INSTRUCTIONS[OpcodeName(op)].opcode == op
  {
    LookupMoves();
    LookupControl();
    LookupBranches();
    LookupCalls();
    LookupArithmetic();
    LookupImmediateArithmetic();
  }

  lemma LookupMoves()
    ensures forall op: nat | op < 0x08 && OpcodeName(op) != "" ::
      OpcodeName(op) in INSTRUCTIONS && INSTRUCTIONS[OpcodeName(op)].opcode == op
  {
  }

  lemma LookupControl()
    ensures forall op: nat | 0x08 <= op < 0x10 && OpcodeName(op) != "" ::
      OpcodeName(op) in INSTRUCTIONS && INSTRUCTIONS[OpcodeName(op)].opcode == op
  {
  }

  lemma LookupBranches()
    ensures forall op: nat | 0x10 <= op < 0x18 && OpcodeName(op) != "" ::
      OpcodeName(op) in INSTRUCTIONS && INSTRUCTIONS[OpcodeName(op)].opcode == op
  {
  }

  lemma LookupCalls()
    ensures forall op: nat | 0x18 <= op < 0x20 && OpcodeName(op) != "" ::
      OpcodeName(op) in INSTRUCTIONS && INSTRUCTIONS[OpcodeName(op)].opcode == op
  {
  }

  lemma LookupArithmetic()
    ensures forall op: nat | 0x20 <= op < 0x30 && OpcodeName(op) != "" ::
      OpcodeName(op) in INSTRUCTIONS && INSTRUCTIONS[OpcodeName(op)].opcode == op
  {
  }

  lemma LookupImmediateArithmetic()
    ensures forall op: nat | 0x30 <= op && OpcodeName(op) != "" ::
      OpcodeName(op) in INSTRUCTIONS && INSTRUCTIONS[OpcodeName(op)].opcode == op
  {
  }

  /** No two mnemonics share an opcode, so an opcode identifies its instruction. */
  lemma OpcodesDistinct()
    ensures forall a, b | a in INSTRUCTIONS && b in INSTRUCTIONS && a != b ::
      INSTRUCTIONS[a].opcode != INSTRUCTIONS[b].opcode
  {
    OpcodeNameInverts();
  }

  /** Every instruction takes at most three operands. */
  lemma AtMostThreeOperands()
    ensures forall name | name in INSTRUCTIONS :: |INSTRUCTIONS[name].params| <= 3
  {
  }

  /** `NOP`, `HLT` and `RET` take no operand. */
  lemma OperandFreeInstructions()
    ensures INSTRUCTIONS["NOP"].params == [] && INSTRUCTIONS["HLT"].params == []
    ensures INSTRUCTIONS["RET"].params == []
  {
  }

  /** The entries of `JMP` and `ADD`: an address operand, and three register operands. */
  lemma JumpAndAddEntries()
    ensures "JMP" in INSTRUCTIONS && INSTRUCTIONS["JMP"] == InstructionInfo(0x10, [Addr])
    ensures "ADD" in INSTRUCTIONS && INSTRUCTIONS["ADD"] == InstructionInfo(0x20, [Reg, Reg, Reg])
  {
  }

  /** `TotalWidth` of a short layout, written out. */
  lemma TotalWidthShort(ws: seq<nat>)
    requires |ws| <= 3
    ensures TotalWidth(ws) ==
      (if |ws| > 0 then ws[0] else 0) + (if |ws| > 1 then ws[1] else 0) + (if |ws| > 2 then ws[2] else 0)
  {
    if |ws| > 0 {
      var a := ws[..|ws| - 1];
      if |a| > 0 {
        var b := a[..|a| - 1];
        if |b| > 0 {
          assert b[..|b| - 1] == [];
        }
      }
    }
  }

  /** The number of bits the operands of `params` take. */
  function OperandBits(params: seq<ParamType>): nat {
    TotalWidth(Widths(Layout(params)))
  }

  /** The operand bits of a layout of at most three operands, written out. */
  function ShortOperandBits(p: seq<ParamType>): nat {
    (if |p| > 0 then ParamSize(p[0]) else 0)
    + (if |p| > 1 then ParamSize(p[1]) else 0)
    + (if |p| > 2 then ParamSize(p[2]) else 0)
  }

  lemma OperandBitsShort(params: seq<ParamType>)
    requires |params| <= 3
    ensures OperandBits(params) == ShortOperandBits(params)
  {
    TotalWidthShort(Widths(Layout(params)));
  }

  /**
   * The opcode and every operand fit in one instruction word, so the final
   * left shift of `assemble_line` is never negative.
   */
  lemma LayoutsFit()
    ensures forall name | name in INSTRUCTIONS :: Fits(WORD_FORMAT, Widths(Layout(INSTRUCTIONS[name].params)))
  {
    AtMostThreeOperands();
    ShortLayoutsFit();
    forall name | name in INSTRUCTIONS
      ensures Fits(WORD_FORMAT, Widths(Layout(INSTRUCTIONS[name].params)))
    {
      OperandBitsShort(INSTRUCTIONS[name].params);
    }
  }

  lemma ShortLayoutsFit()
    ensures forall name | name in INSTRUCTIONS ::
      OPCODE_SIZE + ShortOperandBits(INSTRUCTIONS[name].params) <= INSTRUCTION_SIZE
  {
    AtMostThreeOperands();
    ThreeOperandsStartWithRegister();
    forall name | name in INSTRUCTIONS
      ensures OPCODE_SIZE + ShortOperandBits(INSTRUCTIONS[name].params) <= INSTRUCTION_SIZE
    {
      var p := INSTRUCTIONS[name].params;
      assert forall t: ParamType :: ParamSize(t) <= 10;
    }
  }

  /** An instruction with three operands takes a register first. */
  lemma ThreeOperandsStartWithRegister()
    ensures forall name | name in INSTRUCTIONS && |INSTRUCTIONS[name].params| == 3 :: INSTRUCTIONS[name].params[0] == Reg
  {
  }

  /** The compare-with-immediate branches use every bit of the word: no padding is left. */
  lemma ImmediateBranchesFillWord(name: string)
    requires name in {"BEQI", "BNEI", "BLTI", "BGTI"}
    ensures name in INSTRUCTIONS
    ensures OPCODE_SIZE + OperandBits(INSTRUCTIONS[name].params) == INSTRUCTION_SIZE
  {
    OperandBitsShort(INSTRUCTIONS[name].params);
  }
}
