/**
 * The instruction set of the first assembler: the same opcodes and word
 * layout as the facPU table, but with only three operand kinds, a single
 * 10-bit immediate among them. The prototype assembler declares the very
 * same constants and table.
 */
module LegacyHardwareDefinition {
  import opened Packing
  import Operands
  import HardwareDefinition

  datatype ParamType = Register | Immediate | Address

  datatype InstructionInfo = InstructionInfo(opcode: nat, params: seq<ParamType>)

  const OPCODE_SIZE: nat := 7
  const INSTRUCTION_SIZE: nat := 31

  /** `PARAM_SIZE`. */
  function ParamSize(t: ParamType): nat {
    match t
    case Register => 4
    case Immediate => 10
    case Address => 10
  }

  function SlotOf(t: ParamType): (slot: Operands.Slot)
    ensures slot.width == ParamSize(t)
  {
    match t
    case Register => Operands.Slot(Operands.RegisterField, ParamSize(t))
    case Immediate => Operands.Slot(Operands.ImmediateField, ParamSize(t))
    case Address => Operands.Slot(Operands.AddressField, ParamSize(t))
  }

  function Layout(params: seq<ParamType>): (slots: seq<Operands.Slot>)
    ensures |slots| == |params|
    ensures forall k :: 0 <= k < |params| ==> slots[k] == SlotOf(params[k])
  {
    seq(|params|, k requires 0 <= k < |params| => SlotOf(params[k]))
  }

  const WORD_FORMAT: Format := Format(OPCODE_SIZE, INSTRUCTION_SIZE)

  const INSTRUCTIONS: map<string, InstructionInfo> := map[
    "MOV" := InstructionInfo(0x00, [Register, Register]),
    "LI" := InstructionInfo(0x01, [Register, Immediate]),
    "LD" := InstructionInfo(0x02, [Register, Address]),
    "ST" := InstructionInfo(0x03, [Address, Register]),
    "LDR" := InstructionInfo(0x04, [Register, Register]),
    "STR" := InstructionInfo(0x05, [Register, Register]),
    "NOP" := InstructionInfo(0x08, []),
    "HLT" := InstructionInfo(0x09, []),
    "JMP" := InstructionInfo(0x10, [Address]),
    "BEQ" := InstructionInfo(0x11, [Register, Register, Address]),
    "BNE" := InstructionInfo(0x12, [Register, Register, Address]),
    "BLT" := InstructionInfo(0x13, [Register, Register, Address]),
    "BGT" := InstructionInfo(0x14, [Register, Register, Address]),
    "BEQI" := InstructionInfo(0x15, [Register, Immediate, Address]),
    "BNEI" := InstructionInfo(0x16, [Register, Immediate, Address]),
    "BLTI" := InstructionInfo(0x17, [Register, Immediate, Address]),
    "BGTI" := InstructionInfo(0x18, [Register, Immediate, Address]),
    "CALL" := InstructionInfo(0x19, [Address]),
    "RET" := InstructionInfo(0x1A, []),
    "ADD" := InstructionInfo(0x20, [Register, Register, Register]),
    "SUB" := InstructionInfo(0x21, [Register, Register, Register]),
    "MUL" := InstructionInfo(0x22, [Register, Register, Register]),
    "DIV" := InstructionInfo(0x23, [Register, Register, Register]),
    "MOD" := InstructionInfo(0x24, [Register, Register, Register]),
    "POW" := InstructionInfo(0x25, [Register, Register, Register]),
    "SHL" := InstructionInfo(0x26, [Register, Register, Register]),
    "SHR" := InstructionInfo(0x27, [Register, Register, Register]),
    "AND" := InstructionInfo(0x28, [Register, Register, Register]),
    "OR" := InstructionInfo(0x29, [Register, Register, Register]),
    "XOR" := InstructionInfo(0x2A, [Register, Register, Register]),
    "ADDI" := InstructionInfo(0x30, [Register, Register, Immediate]),
    "SUBI" := InstructionInfo(0x31, [Register, Register, Immediate]),
    "MULI" := InstructionInfo(0x32, [Register, Register, Immediate]),
    "DIVI" := InstructionInfo(0x33, [Register, Register, Immediate]),
    "MODI" := InstructionInfo(0x34, [Register, Register, Immediate]),
    "POWI" := InstructionInfo(0x35, [Register, Register, Immediate]),
    "SHLI" := InstructionInfo(0x36, [Register, Register, Immediate]),
    "SHRI" := InstructionInfo(0x37, [Register, Register, Immediate]),
    "ANDI" := InstructionInfo(0x38, [Register, Register, Immediate]),
    "ORI" := InstructionInfo(0x39, [Register, Register, Immediate]),
    "XORI" := InstructionInfo(0x3A, [Register, Register, Immediate])
  ]

  /** The facPU kind each legacy kind became: `register` is `reg`, `immediate` is `imm10`, `address` is `addr`. */
  function Renamed(t: ParamType): HardwareDefinition.ParamType {
    match t
    case Register => HardwareDefinition.Reg
    case Immediate => HardwareDefinition.Imm10
    case Address => HardwareDefinition.Addr
  }

  function RenamedAll(params: seq<ParamType>): (r: seq<HardwareDefinition.ParamType>)
    ensures |r| == |params|
    ensures forall k :: 0 <= k < |params| ==> r[k] == Renamed(params[k])
  {
    seq(|params|, k requires 0 <= k < |params| => Renamed(params[k]))
  }

  /** A renamed kind is read and packed exactly as the legacy kind was. */
  lemma RenamedSlots(params: seq<ParamType>)
    ensures HardwareDefinition.Layout(RenamedAll(params)) == Layout(params)
  {
    forall k | 0 <= k < |params|
      ensures HardwareDefinition.Layout(RenamedAll(params))[k] == Layout(params)[k]
    {
      match params[k]
      case Register =>
      case Immediate =>
      case Address =>
    }
  }

  /** The two tables list the same mnemonics. */
  lemma SameMnemonicsAsFacpu()
    ensures forall name :: name in INSTRUCTIONS <==> name in HardwareDefinition.INSTRUCTIONS
  {
  }

  lemma LegacyOpcodeNames()
    ensures forall name | name in INSTRUCTIONS :: HardwareDefinition.OpcodeName(INSTRUCTIONS[name].opcode) == name
  {
    LegacyNamesBelow();
    LegacyNamesArithmetic();
    LegacyNamesImmediateArithmetic();
  }

  lemma LegacyNamesBelow()
    ensures forall name | name in INSTRUCTIONS && INSTRUCTIONS[name].opcode < 0x20 ::
      HardwareDefinition.OpcodeName(INSTRUCTIONS[name].opcode) == name
  {
  }

  lemma LegacyNamesArithmetic()
    ensures forall name | name in INSTRUCTIONS && 0x20 <= INSTRUCTIONS[name].opcode < 0x30 ::
      HardwareDefinition.OpcodeName(INSTRUCTIONS[name].opcode) == name
  {
  }

  lemma LegacyNamesImmediateArithmetic()
    ensures forall name | name in INSTRUCTIONS && INSTRUCTIONS[name].opcode >= 0x30 ::
      HardwareDefinition.OpcodeName(INSTRUCTIONS[name].opcode) == name
  {
  }

  lemma SameOpcodesAsFacpu()
    ensures forall name | name in INSTRUCTIONS ::
      name in HardwareDefinition.INSTRUCTIONS
      && HardwareDefinition.INSTRUCTIONS[name].opcode == INSTRUCTIONS[name].opcode
  {
    LegacyOpcodeNames();
    HardwareDefinition.OpcodeNameLookup();
    forall name | name in INSTRUCTIONS
      ensures name in HardwareDefinition.INSTRUCTIONS
      ensures HardwareDefinition.INSTRUCTIONS[name].opcode == INSTRUCTIONS[name].opcode
    {
      assert HardwareDefinition.OpcodeName(INSTRUCTIONS[name].opcode) == name;
      if name == "" {
        assert false;
      }
    }
  }

  /** The first assembler has no `DAT` mnemonic. */
  lemma NoDataMnemonic()
    ensures "DAT" !in INSTRUCTIONS
  {
  }

  /** The operand counts agree, mnemonic by mnemonic (each mnemonic named by its opcode). */
  lemma SameOperandCounts()
    ensures forall op: nat | HardwareDefinition.OpcodeName(op) != "" && HardwareDefinition.OpcodeName(op) in INSTRUCTIONS ::
      |INSTRUCTIONS[HardwareDefinition.OpcodeName(op)].params|
        == |HardwareDefinition.INSTRUCTIONS[HardwareDefinition.OpcodeName(op)].params|
  {
  }

  lemma SameFirstKind()
    ensures forall op: nat |
      && HardwareDefinition.OpcodeName(op) != ""
      && HardwareDefinition.OpcodeName(op) in INSTRUCTIONS
      && 0 < |INSTRUCTIONS[HardwareDefinition.OpcodeName(op)].params|
      && 0 < |HardwareDefinition.INSTRUCTIONS[HardwareDefinition.OpcodeName(op)].params| ::
      HardwareDefinition.INSTRUCTIONS[HardwareDefinition.OpcodeName(op)].params[0]
        == Renamed(INSTRUCTIONS[HardwareDefinition.OpcodeName(op)].params[0])
  {
  }

  lemma SameSecondKind()
    ensures forall op: nat |
      && HardwareDefinition.OpcodeName(op) != ""
      && HardwareDefinition.OpcodeName(op) in INSTRUCTIONS
      && 1 < |INSTRUCTIONS[HardwareDefinition.OpcodeName(op)].params|
      && 1 < |HardwareDefinition.INSTRUCTIONS[HardwareDefinition.OpcodeName(op)].params| ::
      HardwareDefinition.INSTRUCTIONS[HardwareDefinition.OpcodeName(op)].params[1]
        == Renamed(INSTRUCTIONS[HardwareDefinition.OpcodeName(op)].params[1])
  {
  }

  lemma SameThirdKind()
    ensures forall op: nat |
      && HardwareDefinition.OpcodeName(op) != ""
      && HardwareDefinition.OpcodeName(op) in INSTRUCTIONS
      && 2 < |INSTRUCTIONS[HardwareDefinition.OpcodeName(op)].params|
      && 2 < |HardwareDefinition.INSTRUCTIONS[HardwareDefinition.OpcodeName(op)].params| ::
      HardwareDefinition.INSTRUCTIONS[HardwareDefinition.OpcodeName(op)].params[2]
        == Renamed(INSTRUCTIONS[HardwareDefinition.OpcodeName(op)].params[2])
  {
  }

  lemma AtMostThreeOperands()
    ensures forall name | name in INSTRUCTIONS :: |INSTRUCTIONS[name].params| <= 3
  {
  }

  lemma RenamedEntry(name: string)
    requires name in INSTRUCTIONS
    ensures name in HardwareDefinition.INSTRUCTIONS
    ensures HardwareDefinition.INSTRUCTIONS[name].params == RenamedAll(INSTRUCTIONS[name].params)
  {
    SameOpcodesAsFacpu();
    LegacyOpcodeNames();
    var op := INSTRUCTIONS[name].opcode;
    assert HardwareDefinition.OpcodeName(op) == name;
    SameOperandCounts();
    SameFirstKind();
    SameSecondKind();
    SameThirdKind();
    AtMostThreeOperands();
    var facpu, legacy := HardwareDefinition.INSTRUCTIONS[name].params, INSTRUCTIONS[name].params;
    assert |facpu| == |legacy|;
    forall k | 0 <= k < |facpu| ensures facpu[k] == RenamedAll(legacy)[k] {
      if k == 0 {
      } else if k == 1 {
      } else {
        assert k == 2;
      }
    }
  }

  /** Each legacy operand list renames to the facPU one. */
  lemma RenamedOperandKinds()
    ensures forall name | name in INSTRUCTIONS ::
      name in HardwareDefinition.INSTRUCTIONS
      && HardwareDefinition.INSTRUCTIONS[name].params == RenamedAll(INSTRUCTIONS[name].params)
  {
    forall name | name in INSTRUCTIONS
      ensures name in HardwareDefinition.INSTRUCTIONS
      ensures HardwareDefinition.INSTRUCTIONS[name].params == RenamedAll(INSTRUCTIONS[name].params)
    {
      RenamedEntry(name);
    }
  }

  /**
   * The legacy table and the facPU table list the same mnemonics with the
   * same opcodes, and each legacy operand list renames to the facPU one.
   */
  lemma SameTableAsFacpu()
    ensures forall name :: name in INSTRUCTIONS <==> name in HardwareDefinition.INSTRUCTIONS
    ensures forall name | name in INSTRUCTIONS ::
      && HardwareDefinition.INSTRUCTIONS[name].opcode == INSTRUCTIONS[name].opcode
      && HardwareDefinition.INSTRUCTIONS[name].params == RenamedAll(INSTRUCTIONS[name].params)
  {
    SameMnemonicsAsFacpu();
    SameOpcodesAsFacpu();
    RenamedOperandKinds();
  }
}
