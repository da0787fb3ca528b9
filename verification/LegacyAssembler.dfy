/**
 * The first assembler: the same pipeline as the facPU assembler, over the
 * three-kind table, with no pseudo-instructions and no alias rewriting.
 * Its preprocessing is the facPU preprocessing with no aliased mnemonics,
 * and its operand loop is the shared one of `Encoding`.
 */
module LegacyAssembler {
  import opened Diagnostics
  import opened Packing
  import opened Operands
  import opened Encoding
  import opened LegacyHardwareDefinition
  import HardwareDefinition
  import AssemblerInstructions
  import Assembler

  /**
   * `parse_op`: the stripped, upper-cased mnemonic must be a key of the
   * table; every entry found has an opcode that fits its field and a layout
   * that fits the word.
   */
  function ParseOp(token: string, line: nat): (r: Result<InstructionInfo, AssemblyError>)
    ensures r.Ok? <==> Assembler.Mnemonic(token) in INSTRUCTIONS
    ensures r.Ok? ==> r.value == INSTRUCTIONS[Assembler.Mnemonic(token)]
    ensures r.Err? ==> r.error == AssemblyError(UnknownInstruction, line, Some(token))
    ensures r.Ok? ==> r.value.opcode < Pow2(OPCODE_SIZE) && Fits(WORD_FORMAT, Widths(Layout(r.value.params)))
  {
    var instr := Assembler.Mnemonic(token);
    if instr !in INSTRUCTIONS then Err(AssemblyError(UnknownInstruction, line, Some(token)))
    else
      LegacyEntryFits(instr);
      Ok(INSTRUCTIONS[instr])
  }

  /** Every legacy entry fits, because it renames to a facPU entry that does. */
  lemma LegacyEntryFits(name: string)
    requires name in INSTRUCTIONS
    ensures INSTRUCTIONS[name].opcode < Pow2(OPCODE_SIZE)
    ensures Fits(WORD_FORMAT, Widths(Layout(INSTRUCTIONS[name].params)))
  {
    SameTableAsFacpu();
    Assembler.EntryFits(name);
    RenamedSlots(INSTRUCTIONS[name].params);
  }

  /**
   * `assemble_line`: the mnemonic is looked up, the operand count checked,
   * then the operands are encoded behind the opcode. The `None` result of
   * the source is unreachable, since the line it tests is a pair.
   */
  function LineWord(line: Assembler.ProcessedLine, labels: map<string, nat>): (r: Result<nat, AssemblyError>)
    ensures r.Ok? ==> r.value < Pow2(INSTRUCTION_SIZE)
  {
    var split := Assembler.SplitLine(line.text);
    var info :- ParseOp(split.0, line.lineNo);
    if |info.params| != |split.1| then Err(AssemblyError(ParamCount(|info.params|, |split.1|), line.lineNo, None))
    else Encode(WORD_FORMAT, info.opcode, Layout(info.params), split.1, labels, line.lineNo)
  }

  /** `assemble_line`. */
  method AssembleLine(line: Assembler.ProcessedLine, labels: map<string, nat>) returns (r: Result<nat, AssemblyError>)
    ensures r == LineWord(line, labels)
  {
    var split := Assembler.SplitLine(line.text);
    var instr, params := split.0, split.1;
    var instrInfo := ParseOp(instr, line.lineNo);
    if instrInfo.Err? {
      return Err(instrInfo.error);
    }
    var info := instrInfo.value;
    if |info.params| != |params| {
      return Err(AssemblyError(ParamCount(|info.params|, |params|), line.lineNo, None));
    }
    r := EncodeOperands(WORD_FORMAT, info.opcode, Layout(info.params), params, labels, line.lineNo);
  }

  /**
   * The first assembler and the facPU assembler read every line alike,
   * except a `DAT` line.
   */
  lemma AgreesWithFacpu(line: Assembler.ProcessedLine, labels: map<string, nat>)
    requires Assembler.Mnemonic(Assembler.SplitLine(line.text).0) != "DAT"
    ensures LineWord(line, labels) == Assembler.LineWord(line, labels)
  {
    if Assembler.Mnemonic(Assembler.SplitLine(line.text).0) in INSTRUCTIONS {
      TableLineAgrees(line, labels);
    } else {
      UnknownLineAgrees(line, labels);
    }
  }

  /** The first assembler does not know `DAT` and reports it as an unknown instruction. */
  lemma DataLineUnknown(line: Assembler.ProcessedLine, labels: map<string, nat>)
    requires Assembler.Mnemonic(Assembler.SplitLine(line.text).0) == "DAT"
    ensures LineWord(line, labels) == Err(AssemblyError(UnknownInstruction, line.lineNo, Some(Assembler.SplitLine(line.text).0)))
  {
    NoDataMnemonic();
    UnknownLineFails(line, labels);
  }

  /** A line whose mnemonic is not in the table fails at its mnemonic. */
  lemma UnknownLineFails(line: Assembler.ProcessedLine, labels: map<string, nat>)
    requires Assembler.Mnemonic(Assembler.SplitLine(line.text).0) !in INSTRUCTIONS
    ensures LineWord(line, labels) == Err(AssemblyError(UnknownInstruction, line.lineNo, Some(Assembler.SplitLine(line.text).0)))
  {
  }

  /** Such a line fails alike in the facPU assembler, unless its mnemonic is `DAT`. */
  lemma UnknownLineAgrees(line: Assembler.ProcessedLine, labels: map<string, nat>)
    requires Assembler.Mnemonic(Assembler.SplitLine(line.text).0) !in INSTRUCTIONS
    requires Assembler.Mnemonic(Assembler.SplitLine(line.text).0) != "DAT"
    ensures Assembler.LineWord(line, labels) == LineWord(line, labels)
  {
    var instr := Assembler.SplitLine(line.text).0;
    UnknownToFacpu(Assembler.Mnemonic(instr));
    UnknownLineFails(line, labels);
    assert Assembler.ParseOp(instr, line.lineNo).Err?;
  }

  /** A mnemonic the first table lacks, other than `DAT`, is neither a facPU instruction nor a pseudo-instruction. */
  lemma UnknownToFacpu(name: string)
    requires name !in INSTRUCTIONS && name != "DAT"
    ensures name !in HardwareDefinition.INSTRUCTIONS && name !in AssemblerInstructions.ASSEMBLER_PSEUDO_INSTRUCTIONS
  {
    SameMnemonicsAsFacpu();
    AssemblerInstructions.PseudoInstructionTable();
  }

  /** A line whose mnemonic is in the table assembles alike under both assemblers. */
  lemma TableLineAgrees(line: Assembler.ProcessedLine, labels: map<string, nat>)
    requires Assembler.Mnemonic(Assembler.SplitLine(line.text).0) in INSTRUCTIONS
    ensures LineWord(line, labels) == Assembler.LineWord(line, labels)
  {
    var split := Assembler.SplitLine(line.text);
    var params := split.1;
    var name := Assembler.Mnemonic(split.0);
    var info := INSTRUCTIONS[name];
    SameEntry(name);
    var facpu := HardwareDefinition.INSTRUCTIONS[name];
    assert Assembler.ParseOp(split.0, line.lineNo) == Ok(Assembler.Concrete(facpu));
    assert ParseOp(split.0, line.lineNo) == Ok(info);
    if |info.params| == |params| {
      assert HardwareDefinition.WORD_FORMAT == WORD_FORMAT;
      assert Assembler.LineWord(line, labels) == Assembler.OperandsWord(Assembler.Concrete(facpu), params, labels, line.lineNo);
    }
  }

  /** A legacy entry and the facPU entry of the same mnemonic have the same opcode, operand count and layout. */
  lemma SameEntry(name: string)
    requires name in INSTRUCTIONS
    ensures name in HardwareDefinition.INSTRUCTIONS
    ensures HardwareDefinition.INSTRUCTIONS[name].opcode == INSTRUCTIONS[name].opcode
    ensures |HardwareDefinition.INSTRUCTIONS[name].params| == |INSTRUCTIONS[name].params|
    ensures HardwareDefinition.Layout(HardwareDefinition.INSTRUCTIONS[name].params) == Layout(INSTRUCTIONS[name].params)
  {
    SameTableAsFacpu();
    RenamedSlots(INSTRUCTIONS[name].params);
  }

  /** The outcome of `assemble_line` on every processed line, in order. */
  function LineWords(lines: seq<Assembler.ProcessedLine>, labels: map<string, nat>): (words: seq<Result<nat, AssemblyError>>)
    ensures |words| == |lines|
    ensures forall k :: 0 <= k < |lines| ==> words[k] == LineWord(lines[k], labels)
  {
    seq(|lines|, k requires 0 <= k < |lines| => LineWord(lines[k], labels))
  }

  /**
   * The machine code of the processed lines: one word per line, in order,
   * each below 2^31; or the failure of the first line that does not
   * assemble.
   */
  function AssembleAll(lines: seq<Assembler.ProcessedLine>, labels: map<string, nat>): (r: Result<seq<nat>, AssemblyError>)
    ensures r.Ok? <==> forall k :: 0 <= k < |lines| ==> LineWord(lines[k], labels).Ok?
    ensures r.Ok? ==> |r.value| == |lines|
    ensures r.Ok? ==> forall k :: 0 <= k < |lines| ==> r.value[k] == LineWord(lines[k], labels).value
    ensures r.Ok? ==> forall k :: 0 <= k < |lines| ==> r.value[k] < Pow2(INSTRUCTION_SIZE)
    ensures r.Err? ==>
      exists k :: FirstFailure(LineWords(lines, labels), k) && r.error == LineWords(lines, labels)[k].error
  {
    AllOk(LineWords(lines, labels))
  }

  /** `assemble` on the lines of a file: the facPU preprocessing with no aliased mnemonics, then every line. */
  function AssembleSource(source: seq<string>): Result<seq<nat>, AssemblyError> {
    var st :- Assembler.PreprocessSource(source, map[]);
    AssembleAll(st.lines, st.labels)
  }

  /** `assemble`, once the file has been read into lines. */
  method Assemble(source: seq<string>) returns (r: Result<seq<nat>, AssemblyError>)
    ensures r == AssembleSource(source)
  {
    var preprocessed := Assembler.Preprocess(source, map[]);
    if preprocessed.Err? {
      return Err(preprocessed.error);
    }
    var processedLines, labels := preprocessed.value.lines, preprocessed.value.labels;
    ghost var words := LineWords(processedLines, labels);
    var machineCode: seq<nat> := [];
    for k := 0 to |processedLines|
      invariant AllOk(words[..k]) == Ok(machineCode)
    {
      var binary := AssembleLine(processedLines[k], labels);
      if binary.Err? {
        AllOkFailsAt(words, k);
        return Err(binary.error);
      }
      AllOkStep(words, k);
      machineCode := machineCode + [binary.value];
    }
    assert words[..|processedLines|] == words;
    r := Ok(machineCode);
  }

  /**
   * A file with no `DAT` statement assembles to the same machine code, or
   * fails with the same error, under both assemblers, when the facPU
   * assembler is given no aliased mnemonics.
   */
  lemma SourceAgreesWithFacpu(source: seq<string>)
    requires Assembler.PreprocessSource(source, map[]).Ok? ==>
      var lines := Assembler.PreprocessSource(source, map[]).value.lines;
      forall k :: 0 <= k < |lines| ==> Assembler.Mnemonic(Assembler.SplitLine(lines[k].text).0) != "DAT"
    ensures AssembleSource(source) == Assembler.AssembleSource(source, map[])
  {
    var pre := Assembler.PreprocessSource(source, map[]);
    if pre.Ok? {
      var lines, labels := pre.value.lines, pre.value.labels;
      forall k | 0 <= k < |lines| ensures LineWords(lines, labels)[k] == Assembler.LineWords(lines, labels)[k] {
        AgreesWithFacpu(lines[k], labels);
      }
      assert LineWords(lines, labels) == Assembler.LineWords(lines, labels);
    }
  }
}
