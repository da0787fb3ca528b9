# facPU assembler, modelled in Dafny

The facPU assembler turns assembly text into 31-bit machine words. It works
in two phases:

1. **Preprocessing.** For every source line it:
   - drops the `;` comment;
   - binds each `name:` label to the address of the next statement, and rejects a name bound twice;
   - rewrites an aliased mnemonic to the first variant whose operand shape suits the operand tokens;
   - emits each surviving statement with its source line index.
2. **Assembly.** For every emitted statement it:
   - looks the mnemonic up in the opcode table, and then among the pseudo-instructions (`DAT`);
   - checks the operand count;
   - parses each operand as a register `R<n>`, an immediate of 4, 8 or 10 bits, or an address (a label, else a literal);
   - shifts each parsed operand into the word behind the 7-bit opcode, then aligns the whole to the top of 31 bits.

The first assembler (`assembler.py`, `hardware_definition.py`) and the prototype parsers (`main.py`) are earlier versions of the same pipeline:
- they have three operand kinds, with a single 10-bit immediate;
- they have no aliases and no pseudo-instructions;
- the prototype has no labels.

The modules follow the program:

| module | models |
|---|---|
| `Diagnostics` | the `AssemblyError` of a kind, a line index and an optional token; results; `AllOk`, the "first failure wins" collection of a loop that raises |
| `Text` | Python's `strip`, `upper`, `split(";")[0]`, `re.split(r"[,\s]+")`, `",".join`, and the label scan of `re.findall(r"([^\s]+):")` / `re.sub` |
| `IntLiteral` | `int(s, 0)`: sign, `0x`/`0o`/`0b` prefixes, decimals without leading zeros |
| `Packing` | `<<`, `>>`, `|` and masks on unbounded naturals; packing and unpacking of an instruction word |
| `Operands` | `parse_register`, `parse_immediate` and `parse_address` over a field width |
| `Encoding` | the shift-and-OR operand loop of `assemble_line`, shared by both assemblers |
| `HardwareDefinition` | `facpu/hardware_definition.py` |
| `AssemblerInstructions` | `DAT` and the pseudo-instruction table |
| `Macros` | the `define` builtin and the user macro registry, as a class with a map field |
| `Assembler` | `facpu/assembler.py`: `parse_op`, `split_line`, `preprocess`, `assemble_line`, `assemble` |
| `LegacyHardwareDefinition` | `hardware_definition.py`, and its correspondence with the facPU table |
| `LegacyAssembler` | `assembler.py`, and its agreement with the facPU assembler |
| `Prototype` | the parsers of `main.py` |

The imperative parts are `method`s proved against the functions that specify them:
- `preprocess` with its label loop and its alias resolution loop;
- `assemble_line` with its operand loop;
- `assemble` with its line loop;
- `define_macro`, which updates the registry.

facpu/assembler.py:6 imports the table of aliased mnemonics, `ALIASED_INSTRUCTIONS`, from facpu/assembler_instructions.py, which does not define it. The model therefore takes the table as a parameter (`aliases`) whose every variant must be an opcode-table mnemonic, since facpu/assembler.py:126-127 indexes the opcode table with each variant unchecked.

## Model

| member | source | states |
|---|---|---|
| Diagnostics.Located | facpu/assembler.py:13-17 | an operand failure becomes an `AssemblyError` carrying the line index and the offending token; a success passes through unchanged |
| Diagnostics.AllOk | facpu/assembler.py:200-206 | a loop that raises on the first failure: all values in order when every result succeeds, else the error of the first failing result |
| Diagnostics.AllOkStep | facpu/assembler.py:204-206 | one more iteration of such a loop appends its value, or ends the loop with its error |
| Diagnostics.AllOkFailsAt | facpu/assembler.py:204-206 | when the first failure is at `k`, the whole loop fails with that error |
| Diagnostics.AllOkErrorPersists | facpu/assembler.py:204-206 | once a failure happens, running the loop further does not change the error |
| Text.TrimStart | facpu/assembler.py:41 | the result is a suffix of the input, what was dropped is all whitespace, and the result does not start with whitespace |
| Text.TrimEnd | facpu/assembler.py:41 | the result is a prefix of the input, what was dropped is all whitespace, and the result does not end with whitespace |
| Text.Strip | facpu/assembler.py:41 | `strip()`: neither end of the result is whitespace, and the result is empty exactly when the input is all whitespace |
| Text.StripNoSpace | facpu/assembler.py:53 | stripping a token that holds no whitespace leaves it unchanged |
| Text.BeforeFirst | facpu/assembler.py:103 | `split(";")[0]`: the longest prefix without `;`, followed in the input by a `;` when shorter than it |
| Text.ToUpper | facpu/assembler.py:41 | `upper()` character by character, preserving the length |
| Text.SplitOnSeparators | facpu/assembler.py:151 | `re.split(r"[,\s]+")`: at least one piece; no piece holds a comma or whitespace; only the first and last piece may be empty; the first is non-empty when the text does not start with a separator |
| Text.SeparatorRuns | facpu/assembler.py:151 | the separator runs `re.split(r"[,\s]+")` removes, in order: each one non-empty and made only of commas and whitespace |
| Text.SplitRebuilds | facpu/assembler.py:151 | the split has one piece more than there are separator runs, and the pieces interleaved with those runs rebuild the input exactly |
| Text.SplitAfterWord | facpu/assembler.py:151 | a word followed by one separator and more text splits into the word and the pieces of that text |
| Text.SplitJoinComma | facpu/assembler.py:142 | splitting a comma-joined list of split-shaped pieces gives back exactly those pieces (the alias rewrite keeps the tokens) |
| Text.ScanLabels | facpu/assembler.py:108 | every label found is non-empty and contains no whitespace |
| IntLiteral.DecimalText | facpu/assembler.py:68 | `str(n)`: a non-empty run of decimal digits with no leading zero unless `n` is 0 |
| IntLiteral.DecimalTextValue | facpu/assembler.py:68 | the digits of `str(n)` have the value `n` |
| IntLiteral.DecimalRoundTrip | facpu/assembler.py:68 | `int(str(n), 0) == n` for every natural `n` |
| IntLiteral.NegativeDecimalRoundTrip | facpu/assembler.py:68 | `int("-" + str(n), 0) == -n` |
| IntLiteral.DecimalTextNoSeparator | facpu/assembler.py:151 | a decimal numeral holds no separator, so it stays one operand token |
| Packing.OrIntoFreeBits | facpu/assembler.py:177 | `(acc << w) \| v` equals `acc * 2^w + v` whenever `v < 2^w`, which the range checks guarantee |
| Packing.ShiftInBound | facpu/assembler.py:177-178 | shifting a `w`-bit field into a `k`-bit accumulator gives a `k + w`-bit accumulator |
| Packing.ShiftInSplit | facpu/assembler.py:177 | after `(acc << w) \| v`, the low `w` bits are `v` and shifting right by `w` gives `acc` back |
| Packing.AccumulateBound | facpu/assembler.py:170-186 | the accumulator after the operand loop has fewer bits than the opcode width plus the field widths |
| Packing.UnpackAccumulate | facpu/assembler.py:170-186 | shift-and-mask decoding of the accumulator gives back the opcode and every field |
| Packing.AccumulateUnpack | facpu/assembler.py:170-186 | conversely, packing the decoded fields rebuilds any accumulator |
| Packing.UnpackOpcode | facpu/assembler.py:170-186 | what is left above the fields is the accumulator shifted right by their total width |
| Packing.PackWordDecodes | facpu/assembler.py:170-188 | for an in-range opcode and fields, the word is below `2^31`, its padding bits are zero, its top 7 bits are the opcode, and it decodes to exactly the opcode and the fields |
| Packing.DecodePacks | facpu/assembler.py:170-188 | a word whose padding bits are zero is the packing of its own decoding |
| Operands.MaxValue | facpu/assembler.py:57 | `(1 << width) - 1` is one below `2^width` |
| Operands.ParseRegister | facpu/assembler.py:52-63 | succeeds exactly when the stripped token is `R` or `r` then decimal digits whose value fits the field, and returns that value; a syntax error otherwise, or an out-of-range error naming the maximum |
| Operands.RangeChecked | facpu/assembler.py:72-75 | `0 <= val <= max`: accepts exactly the values below `2^width`, else an out-of-range error naming the maximum |
| Operands.ParseImmediate | facpu/assembler.py:66-76 | succeeds exactly when `int(token, 0)` parses and the value lies in `[0, 2^width)`, returning it; a syntax error when it does not parse; an out-of-range error otherwise |
| Operands.ParseAddress | facpu/assembler.py:79-92 | a label's value is used whenever the token is a label, without trying a literal, and must fit the field; any other token is read as a literal with the immediate's rules |
| Operands.RegisterRoundTrip | facpu/assembler.py:52-63 | `R<n>` or `r<n>`, with `n` written by `str`, parses back to `n` exactly when `n` fits the field |
| Operands.RegisterLeadingZeros | facpu/assembler.py:59 | register digits may carry leading zeros: `R007` is register 7 |
| Operands.ImmediateRoundTrip | facpu/assembler.py:66-76 | a decimal literal parses back to its value exactly when it fits the field, and is out of range otherwise |
| Operands.ImmediateRejectsNegative | facpu/assembler.py:73-74 | a negative literal is well-formed but always out of range |
| Operands.AddressRoundTrip | facpu/assembler.py:79-92 | a decimal address that is not a label's name reads as itself exactly when it fits |
| Operands.ParseField | facpu/assembler.py:173-186 | the parser that each operand kind selects yields a value that fits the kind's field |
| Operands.Widths | facpu/hardware_definition.py:12 | the field widths of a layout, in order |
| Encoding.FieldResults | facpu/assembler.py:173-186 | each operand's parse result, with a failure attached to its line and token |
| Encoding.ParseOperands | facpu/assembler.py:173-186 | all operands parse exactly when each does; the values fit their fields and are each operand's value; on failure, the error is the first failing operand's, at its token |
| Encoding.ParsedOperands | facpu/assembler.py:173-186 | operands that each parse to a given value parse to those values |
| Encoding.Encode | facpu/assembler.py:170-188 | the word is produced exactly when every operand parses, is below `2^wordSize`, and otherwise fails with the operand loop's error |
| Encoding.EncodeDecodes | facpu/assembler.py:170-188 | an encoded word has zero padding bits, its top bits are the opcode, and it decodes to the opcode and the parsed operands |
| Encoding.EncodedWordDecodes | facpu/assembler.py:170-188 | each decoded field of an encoded word is what its operand token parses to |
| Encoding.EncodeParsed | facpu/assembler.py:170-188 | operands that parse to `values` encode to the packing of `values` behind the opcode |
| Encoding.EncodeSingle | facpu/assembler.py:170-188 | with one operand, the word packs its value, or fails with that operand's error at its token |
| Encoding.EncodeOperands | facpu/assembler.py:170-188 | the shift-and-OR loop with its growing `instruction_length`, then the final alignment shift, computes `Encode` |
| HardwareDefinition.SlotOf | facpu/hardware_definition.py:12 | each kind's field width is its `PARAM_SIZE`; only `reg` is read as a register and only `addr` as an address |
| HardwareDefinition.Layout | facpu/hardware_definition.py:6-8 | one field per operand kind, in order |
| HardwareDefinition.Pow2Seven | facpu/hardware_definition.py:11 | the opcode field holds 128 values |
| HardwareDefinition.OpcodesFit | facpu/hardware_definition.py:11-57 | every opcode fits in the 7 bits of `OPCODE_SIZE` |
| HardwareDefinition.OpcodeNameInverts | facpu/hardware_definition.py:15-57 | the opcode-to-name table inverts the opcode column: every entry's opcode names that entry |
| HardwareDefinition.OpcodeNameLookup | facpu/hardware_definition.py:15-57 | every name that the opcode-to-name table gives is in the table with that opcode |
| HardwareDefinition.OpcodesDistinct | facpu/hardware_definition.py:15-57 | no two mnemonics share an opcode |
| HardwareDefinition.AtMostThreeOperands | facpu/hardware_definition.py:15-57 | every instruction takes at most three operands |
| HardwareDefinition.OperandFreeInstructions | facpu/hardware_definition.py:22-23 | `NOP`, `HLT` and `RET` take no operand |
| HardwareDefinition.JumpAndAddEntries | facpu/hardware_definition.py:24-35 | `JMP` is opcode 0x10 with one address; `ADD` is 0x20 with three registers |
| HardwareDefinition.LayoutsFit | facpu/hardware_definition.py:11-57 | for every entry, the opcode plus the operand widths fit the 31-bit word, so the alignment shift is never negative |
| HardwareDefinition.ThreeOperandsStartWithRegister | facpu/hardware_definition.py:15-57 | every three-operand instruction takes a register first |
| HardwareDefinition.ImmediateBranchesFillWord | facpu/hardware_definition.py:29-32 | `BEQI`, `BNEI`, `BLTI` and `BGTI` fill the 31 bits exactly |
| AssemblerInstructions.PseudoInstruction.ExpectedParameters | facpu/assembler_instructions.py:11-15 | `DAT` expects one operand: its handler's parameters without `line` |
| AssemblerInstructions.DataInstr | facpu/assembler_instructions.py:18-31 | succeeds exactly when `int(data, 0)` parses to a value in `[0, 2^31)`, and returns it unchanged; a syntax error naming the token when it does not parse; an out-of-range error naming `2^31 - 1` otherwise |
| AssemblerInstructions.Apply | facpu/assembler.py:167-168 | a pseudo-instruction's word is below `2^31` |
| AssemblerInstructions.DataRoundTrip | facpu/assembler_instructions.py:22-31 | `DAT n` written in decimal emits `n` for every `n < 2^31` and is out of range from `2^31` on |
| AssemblerInstructions.DataRejectsNegative | facpu/assembler_instructions.py:27-29 | a negative `DAT` value is out of range, naming the token |
| AssemblerInstructions.PseudoInstructionTable | facpu/assembler_instructions.py:34-36 | the pseudo-instruction table holds exactly `DAT`, with one operand, and `DAT` is not an opcode mnemonic |
| Macros.UserMacroRegistry.constructor | facpu/macros.py:12-13 | the registry starts empty |
| Macros.UserMacroRegistry.DefineMacro | facpu/macros.py:16-26 | with other than two arguments it fails and leaves the registry unchanged; with two it returns `""`, binds the name to the template, overwriting any earlier binding, and keeps every other entry |
| Macros.BuiltinTable | facpu/macros.py:29-31 | the builtin table holds exactly `define` |
| Assembler.ParseOp | facpu/assembler.py:40-49 | the stripped, upper-cased mnemonic is looked up in the opcode table first, then among the pseudo-instructions; it fails, naming the token, exactly when it is in neither; an opcode entry found fits the word |
| Assembler.SplitLine | facpu/assembler.py:150-153 | the mnemonic followed by the operand tokens is exactly the `re.split` of the line |
| Assembler.DetectParamType | facpu/assembler.py:119-123 | `{reg}` exactly when the stripped token starts with upper-case `R`, else the four non-register kinds |
| Assembler.FirstMatch | facpu/assembler.py:125-135 | the index of the first variant whose operand count and kinds suit the tokens; no earlier variant suits them |
| Assembler.ResolveAlias | facpu/assembler.py:125-135 | no variant is chosen exactly when none suits the tokens; otherwise the first suitable one in declared order |
| Assembler.ResolveInstrAlias | facpu/assembler.py:125-135 | the loop with its early return computes `ResolveAlias` |
| Assembler.ResolutionDependsOnShape | facpu/assembler.py:119-135 | resolution sees only the number of tokens and which of them start with `R` |
| Assembler.LowerCaseRegisterNotRegisterShaped | facpu/assembler.py:119-123 | `r<n>` is a valid register operand, yet alias resolution treats it as a non-register |
| Assembler.DistinctAppend | facpu/assembler.py:110-113 | labels that are distinct within a line and new to the table keep the table free of duplicates |
| Assembler.BoundLabels | facpu/assembler.py:108-113 | binding a line's labels succeeds exactly when they are distinct and none is bound yet; then the table holds the old names plus the new ones, old bindings unchanged, each new one bound to the current address |
| Assembler.BindErrorPersists | facpu/assembler.py:110-112 | a duplicate among the first labels of a line fails the whole line with that error |
| Assembler.BindLabels | facpu/assembler.py:110-113 | a failure is a duplicate-label error on the current line; which label it names is stated by `BindErrorNamesLabel` |
| Assembler.BindErrorNamesLabel | facpu/assembler.py:110-112 | a failed binding is the duplicate-label error on the current line naming the first label already bound, in the table or earlier on the same line, with no label before it bound |
| Assembler.BindFoundLabels | facpu/assembler.py:110-113 | the label loop computes `BindLabels` |
| Assembler.Canonical | facpu/assembler.py:137-142 | a non-aliased statement is kept verbatim; an aliased one fails exactly when no variant suits its tokens, with the error naming the alias group, and otherwise becomes the resolved variant followed by the statement's operand tokens, joined by commas; a rewritten statement is never empty |
| Assembler.CanonicalSplits | facpu/assembler.py:137-142 | a rewritten statement splits back into the resolved variant and the original operand tokens, unchanged and in order |
| Assembler.MnemonicsCapital | facpu/hardware_definition.py:15-57 | every opcode-table mnemonic is a word of one to four upper-case letters |
| Assembler.MnemonicsAreTokens | facpu/hardware_definition.py:15-57 | every opcode-table mnemonic is one non-empty token with no comma or whitespace |
| Assembler.CanonicalParses | facpu/assembler.py:137-142 | a rewritten statement names the resolved variant's opcode-table entry and carries exactly as many operands as that entry takes |
| Assembler.RewriteAlias | facpu/assembler.py:137-142 | the alias step computes `Canonical` |
| Assembler.View | facpu/assembler.py:103-117 | what one line yields: its text without comment, its labels (non-empty, without whitespace), the statement left (the whole text when there are no labels), and that statement after alias rewriting |
| Assembler.Views | facpu/assembler.py:102 | one view per source line |
| Assembler.PreprocessErrorPersists | facpu/assembler.py:102-145 | once a line fails, preprocessing fails with that line's error |
| Assembler.PreprocessAddressed | facpu/assembler.py:98-147 | after any number of lines: one emitted line per statement, in strictly increasing source order, with non-empty rewritten text; every label defined is bound once, to the number of statements before its line |
| Assembler.PreprocessedSource | facpu/assembler.py:98-147 | the same addressing facts for a whole file |
| Assembler.DuplicateLabelFails | facpu/assembler.py:110-112 | a name defined twice, on one line or on two, makes preprocessing fail |
| Assembler.DuplicateLabelError | facpu/assembler.py:105-112 | when the lines above preprocess, a line defining an already-bound label stops preprocessing with the duplicate-label error at that line, naming the first such label |
| Assembler.SkippedLineEmitsNothing | facpu/assembler.py:105-117 | a blank, comment-only or label-only line emits nothing and does not advance the address |
| Assembler.CountMonotone | facpu/assembler.py:145 | the address counter never decreases |
| Assembler.StatementsBefore | facpu/assembler.py:144-145 | an emitted line comes from before line `m` exactly when its index is below the number of statements before `m` |
| Assembler.LabelAddressesNextStatement | facpu/assembler.py:108-145 | a label addresses the first statement at or after its line, and the statement before that address lies above the label |
| Assembler.LabelResolvesAnywhere | facpu/assembler.py:201-206 | an address operand naming a label reads as that label's address wherever it is used, before or after the definition, when it fits |
| Assembler.PreprocessOneLine | facpu/assembler.py:102-145 | one iteration of the line loop computes `PreprocessLine` |
| Assembler.Preprocess | facpu/assembler.py:98-147 | the line loop computes `PreprocessSource` |
| Assembler.EntryFits | facpu/hardware_definition.py:11-57 | every opcode-table entry has an opcode that fits and a layout that fits the word |
| Assembler.OperandsWord | facpu/assembler.py:167-188 | the word of an instruction with the right operand count is below `2^31` |
| Assembler.LineWord | facpu/assembler.py:156-190 | the word of a processed line is below `2^31` |
| Assembler.AssembleOperands | facpu/assembler.py:167-188 | the pseudo-instruction call or the operand loop computes `OperandsWord` |
| Assembler.AssembleLine | facpu/assembler.py:156-190 | `assemble_line` computes `LineWord` |
| Assembler.ConcreteLineDecodes | facpu/assembler.py:160-188 | a line with an opcode-table mnemonic that assembles has the table's operand count, and its word is the encoding of its operands (which decodes back to them) |
| Assembler.RejectedBeforeOperands | facpu/assembler.py:160-165 | an unknown mnemonic fails, naming it, and a wrong operand count fails with the expected and actual counts, before any operand is parsed |
| Assembler.StatementWord | facpu/assembler.py:156-168 | a line whose mnemonic is found with the right operand count assembles to the word of its operands |
| Assembler.LineWords | facpu/assembler.py:204-205 | one `assemble_line` outcome per processed line, in order |
| Assembler.AssembleAll | facpu/assembler.py:203-206 | machine code is produced exactly when every line assembles: one word per line, in order, each below `2^31`; otherwise the error of the first failing line |
| Assembler.Assemble | facpu/assembler.py:200-206 | preprocessing, then the line loop, computes `AssembleSource` |
| Assembler.AssembleLines | facpu/assembler.py:203-206 | the line loop computes the "first failure wins" collection of the line words |
| Assembler.MachineCodePerStatement | facpu/assembler.py:200-206 | a file that assembles yields one word per statement, each the word of that statement against the final labels |
| Assembler.SplitStatement | facpu/assembler.py:150-153 | a mnemonic, a space, then comma-joined operands splits back into them |
| Assembler.RegisterToken | facpu/assembler.py:52-63 | `R<n>` reads as register `n` for every `n < 16` |
| Assembler.RegisterFieldsPack | facpu/assembler.py:170-188 | three 4-bit fields behind a 7-bit opcode form `opcode·2^24 + a·2^20 + b·2^16 + c·2^12` |
| Assembler.ThreeRegisterWord | facpu/assembler.py:170-188 | three register tokens encode to that word |
| Assembler.AddressFieldPack | facpu/assembler.py:170-188 | one 10-bit field behind a 7-bit opcode forms `opcode·2^24 + v·2^14` |
| Assembler.AddressWord | facpu/assembler.py:170-188 | an address token that parses to `v` encodes to that word |
| Assembler.AddressWordFails | facpu/assembler.py:183-184 | an address token that does not parse fails the word with the parser's error, at the token |
| Assembler.JumpMnemonic | facpu/assembler.py:40-44 | `JMP` names opcode 0x10 with one address |
| Assembler.AddMnemonic | facpu/assembler.py:40-44 | `ADD` names opcode 0x20 with three registers |
| Assembler.AddLine | facpu/assembler.py:156-190 | the statement `ADD R1,R2,R3` assembles to 538062848 |
| Assembler.JumpLine | facpu/assembler.py:156-190 | the statement `JMP 0` assembles to 268435456, unless a label is named `0` |
| LegacyHardwareDefinition.SlotOf | hardware_definition.py:12 | each kind's field width is its `PARAM_SIZE` |
| LegacyHardwareDefinition.RenamedSlots | hardware_definition.py:12 | a legacy kind renamed to its facPU kind (`register`→`reg`, `immediate`→`imm10`, `address`→`addr`) is read and packed exactly as before |
| LegacyHardwareDefinition.SameMnemonicsAsFacpu | hardware_definition.py:15-56 | the two tables list the same mnemonics |
| LegacyHardwareDefinition.SameOpcodesAsFacpu | hardware_definition.py:15-56 | every mnemonic has the same opcode in both tables |
| LegacyHardwareDefinition.NoDataMnemonic | hardware_definition.py:15-56 | the first table has no `DAT` |
| LegacyHardwareDefinition.SameOperandCounts | hardware_definition.py:15-56 | every mnemonic has the same operand count in both tables |
| LegacyHardwareDefinition.AtMostThreeOperands | hardware_definition.py:15-56 | every instruction takes at most three operands |
| LegacyHardwareDefinition.RenamedEntry | hardware_definition.py:15-56 | each legacy operand list renames to the facPU one |
| LegacyHardwareDefinition.SameTableAsFacpu | hardware_definition.py:11-56 | the table is the facPU table under the renaming: the same mnemonics, opcodes and operand kinds |
| LegacyAssembler.ParseOp | assembler.py:41-46 | the stripped, upper-cased mnemonic must be a key of the table; it fails, naming the token, exactly when it is not |
| LegacyAssembler.LegacyEntryFits | hardware_definition.py:11-56 | every legacy entry has an opcode that fits and a layout that fits the word |
| LegacyAssembler.LineWord | assembler.py:117-151 | the word of a processed line is below `2^31` |
| LegacyAssembler.AssembleLine | assembler.py:117-151 | `assemble_line` computes `LineWord` |
| LegacyAssembler.AgreesWithFacpu | assembler.py:117-151 | every line other than a `DAT` line assembles alike, word or error, under both assemblers |
| LegacyAssembler.DataLineUnknown | assembler.py:126 | the first assembler rejects `DAT` as an unknown instruction |
| LegacyAssembler.TableLineAgrees | assembler.py:126-149 | a line with a table mnemonic assembles alike under both assemblers |
| LegacyAssembler.UnknownLineAgrees | assembler.py:41-44 | an unknown mnemonic other than `DAT` fails alike under both assemblers |
| LegacyAssembler.LineWords | assembler.py:165-168 | one `assemble_line` outcome per processed line, in order |
| LegacyAssembler.AssembleAll | assembler.py:164-168 | machine code is produced exactly when every line assembles: one word per line, in order, each below `2^31`; otherwise the first failing line's error |
| LegacyAssembler.Assemble | assembler.py:161-168 | preprocessing, then the line loop, computes `AssembleSource` |
| LegacyAssembler.SourceAgreesWithFacpu | assembler.py:90-168 | a file with no `DAT` statement gives the same machine code, or the same error, under both assemblers, when the facPU assembler has no aliases |
| Prototype.Maxima | main.py:60-62 | the maxima are 15, 1023 and 1023 |
| Prototype.ParseOp | main.py:64-69 | the stripped, upper-cased mnemonic must be a key of the table; the entry is returned, else an unknown-instruction error |
| Prototype.ParseOpAsLegacy | main.py:64-69 | the prototype finds the same entry as the first assembler, and fails on the same tokens |
| Prototype.ParseRegister | main.py:72-81 | succeeds exactly when the stripped token is `R`/`r` and digits with a value of at most 15, and returns that value; a syntax error otherwise, or out of range |
| Prototype.ParseImmediate | main.py:84-89 | succeeds exactly when `int(token, 0)` parses to a value in `[0, 1023]`, and returns it |
| Prototype.ParseAddress | main.py:92-97 | the same as the immediate: a literal in `[0, 1023]`, with no label lookup |
| Prototype.AddressWithoutLabels | main.py:92-97 | the prototype address parser is the later one with an empty label table, and rejects a label name that the later one reads |
| Prototype.RegisterRoundTrip | main.py:72-81 | `R<n>` parses back to `n` exactly when `n <= 15` |

## Left out

- `AssemblyError.format_error` (facpu/assembler.py:19-37, assembler.py:20-38) and every message string: they are terminal colouring and text. An error is a kind, a line index and an optional token.
- The file handling of `assemble` (the existence check, `open`, `readlines`) and the re-raising of an `AssemblyError` as a formatted `Exception`. `Assemble` starts from the lines already read and returns the `AssemblyError` itself.
- The expansion of `#name(...)` macro calls: neither facpu/assembler.py nor facpu/macros.py expands them. Only `define_macro`'s effect on the registry is modelled.
- Macros.UserMacroRegistry: the registry is an object, where the source keeps one dictionary shared by the class. A program holding a single registry behaves alike.
- AssemblerInstructions.PseudoInstruction.ExpectedParameters: the operand count of `DAT` is stated as data, not read off the handler's signature by reflection.
- The contents of the aliased-mnemonic table: facpu/assembler_instructions.py does not define `ALIASED_INSTRUCTIONS`, so the model takes it as a parameter, required to name only opcode-table variants.
- Text.ScanLabels: its contract states only that the labels are non-empty and free of whitespace. How it reproduces `re.findall(r"([^\s]+):")` and `re.sub(r"[^\s]+:", "")` is in its body: in each whitespace-delimited run holding a `:` after its first character, the label is the text before the last `:`, and that much of the run is removed.
- IntLiteral: `int(s, 0)` is modelled without underscores between digits and with ASCII digits only. Likewise `\d` in a register matches ASCII digits only, and `upper()` changes only ASCII letters.
- Prototype: the prototype raises a bare `ValueError` with no line; it is modelled as an error kind. A malformed literal, which makes `int` raise, is a syntax error.
- LegacyAssembler.LineWord: the `None` result of the first `assemble_line` is not modelled, since the line it tests is always a non-empty pair; so no line is dropped from the output.
- The preprocessing of `assembler.py` (lines 90-114) is the facPU preprocessing given no aliased mnemonics (`Assembler.PreprocessSource(source, map[])`); with an empty alias table the rewrite keeps every statement verbatim.
- `cli.py`, `factorio.py` and `setup.py` are not part of this model: command line, blueprint output and packaging.
