/**
 * The facPU assembler: preprocessing (comments, labels, aliases, address
 * assignment), then per-line encoding against the opcode table into
 * left-aligned 31-bit words.
 *
 * The alias groups (generic mnemonic to its concrete variants, in order of
 * preference) are an input of the model: every variant must be a mnemonic
 * of the opcode table.
 */
module Assembler {
  import opened Diagnostics
  import opened Text
  import opened IntLiteral
  import opened Packing
  import opened Operands
  import opened HardwareDefinition
  import opened AssemblerInstructions
  import opened Encoding

  /* ---------------------------------------------------------------- */
  /* Mnemonics and tokens                                              */
  /* ---------------------------------------------------------------- */

  /** What a mnemonic names: an opcode-table entry or a pseudo-instruction. */
  datatype Op = Concrete(info: InstructionInfo) | Pseudo(pseudo: PseudoInstruction)

  /** The key a mnemonic token is looked up under: stripped and upper-cased. */
  function Mnemonic(token: string): string {
    ToUpper(Strip(token))
  }

  /**
   * `parse_op`: the opcode table is consulted first, then the
   * pseudo-instructions; anything else is an unknown instruction.
   */
  function ParseOp(token: string, line: nat): (r: Result<Op, AssemblyError>)
    ensures Mnemonic(token) in INSTRUCTIONS ==> r == Ok(Concrete(INSTRUCTIONS[Mnemonic(token)]))
    ensures Mnemonic(token) !in INSTRUCTIONS && Mnemonic(token) in ASSEMBLER_PSEUDO_INSTRUCTIONS ==>
      r == Ok(Pseudo(ASSEMBLER_PSEUDO_INSTRUCTIONS[Mnemonic(token)]))
    ensures r.Err? <==> Mnemonic(token) !in INSTRUCTIONS && Mnemonic(token) !in ASSEMBLER_PSEUDO_INSTRUCTIONS
    ensures r.Err? ==> r.error == AssemblyError(UnknownInstruction, line, Some(token))
    ensures r.Ok? ==> Encodable(r.value)
  {
    var instr := Mnemonic(token);
    if instr in INSTRUCTIONS then
      EntryFits(instr);
      Ok(Concrete(INSTRUCTIONS[instr]))
    else if instr in ASSEMBLER_PSEUDO_INSTRUCTIONS then Ok(Pseudo(ASSEMBLER_PSEUDO_INSTRUCTIONS[instr]))
    else Err(AssemblyError(UnknownInstruction, line, Some(token)))
  }

  /** The number of operands an instruction expects. */
  function Arity(op: Op): nat {
    match op
    case Concrete(info) => |info.params|
    case Pseudo(p) => p.ExpectedParameters()
  }

  /** An opcode-table entry whose opcode fits its field and whose operand fields fit the word. */
  predicate Encodable(op: Op) {
    op.Concrete? ==> op.info.opcode < Pow2(OPCODE_SIZE) && Fits(WORD_FORMAT, Widths(Layout(op.info.params)))
  }

  /** `split_line`: the mnemonic, then the operand tokens. */
  function SplitLine(content: string): (split: (string, seq<string>))
    ensures [split.0] + split.1 == SplitOnSeparators(content)
  {
    var parts := SplitOnSeparators(content);
    (parts[0], parts[1..])
  }

  /* ---------------------------------------------------------------- */
  /* Alias resolution                                                  */
  /* ---------------------------------------------------------------- */

  /** The token, once stripped, starts with an upper-case `R`. */
  predicate RegisterShaped(param: string) {
    var t := Strip(param);
    |t| > 0 && t[0] == 'R'
  }

  /** `detect_param_type`: the operand kinds a token may stand for. */
  function DetectParamType(param: string): (kinds: set<ParamType>)
    ensures Reg in kinds <==> RegisterShaped(param)
    ensures kinds == {Reg} || kinds == {Imm4, Imm8, Imm10, Addr}
  {
    if RegisterShaped(param) then {Reg} else {Imm4, Imm8, Imm10, Addr}
  }

  /** Every variant of an alias group is an opcode-table mnemonic. */
  predicate VariantsKnown(variants: seq<string>) {
    forall k :: 0 <= k < |variants| ==> variants[k] in INSTRUCTIONS
  }

  predicate WellFormedAliases(aliases: map<string, seq<string>>) {
    forall group | group in aliases :: VariantsKnown(aliases[group])
  }

  /** Operand kinds that suit the tokens: as many kinds as tokens, each kind allowed for its token. */
  predicate KindsMatch(kinds: seq<ParamType>, params: seq<string>) {
    |kinds| == |params| && forall k :: 0 <= k < |params| ==> kinds[k] in DetectParamType(params[k])
  }

  /** A variant whose operand kinds suit the tokens. */
  predicate VariantMatches(variant: string, params: seq<string>)
    requires variant in INSTRUCTIONS
  {
    KindsMatch(INSTRUCTIONS[variant].params, params)
  }

  /** The index of the first matching variant, or `|variants|` when none matches. */
  function FirstMatch(variants: seq<string>, params: seq<string>): (i: nat)
    requires VariantsKnown(variants)
    ensures i <= |variants|
    ensures forall j :: 0 <= j < i ==> !VariantMatches(variants[j], params)
    ensures i < |variants| ==> VariantMatches(variants[i], params)
    decreases |variants|
  {
    if |variants| == 0 then 0
    else if VariantMatches(variants[0], params) then 0
    else
      var rest := variants[1..];
      var i := 1 + FirstMatch(rest, params);
      assert forall j :: 1 <= j < i ==> variants[j] == rest[j - 1];
      i
  }

  /** The variant an alias resolves to: the first one, in declared order, that matches the tokens. */
  function ResolveAlias(variants: seq<string>, params: seq<string>): (r: Option<string>)
    requires VariantsKnown(variants)
    ensures r.None? <==> forall k :: 0 <= k < |variants| ==> !VariantMatches(variants[k], params)
    ensures r.Some? ==> r.value == variants[FirstMatch(variants, params)]
  {
    var i := FirstMatch(variants, params);
    if i < |variants| then Some(variants[i]) else None
  }

  /** `resolve_instr_alias`: tries the variants in order and returns the first that matches. */
  method ResolveInstrAlias(variants: seq<string>, params: seq<string>) returns (r: Option<string>)
    requires VariantsKnown(variants)
    ensures r == ResolveAlias(variants, params)
  {
    for k := 0 to |variants|
      invariant forall j :: 0 <= j < k ==> !VariantMatches(variants[j], params)
    {
      var kinds := INSTRUCTIONS[variants[k]].params;
      if |kinds| != |params| {
        continue;
      }
      if KindsMatch(kinds, params) {
        return Some(variants[k]);
      }
    }
    return None;
  }

  /** Two token lists of the same length whose tokens agree on starting with `R` resolve alike. */
  lemma {:induction false} ResolutionDependsOnShape(variants: seq<string>, p: seq<string>, q: seq<string>)
    requires VariantsKnown(variants)
    requires |p| == |q| && forall k :: 0 <= k < |p| ==> (RegisterShaped(p[k]) <==> RegisterShaped(q[k]))
    ensures ResolveAlias(variants, p) == ResolveAlias(variants, q)
  {
    forall v | v in INSTRUCTIONS
      ensures VariantMatches(v, p) <==> VariantMatches(v, q)
    {
      assert forall k :: 0 <= k < |p| ==> DetectParamType(p[k]) == DetectParamType(q[k]);
    }
    var i := FirstMatch(variants, p);
    assert forall k :: 0 <= k < i ==> !VariantMatches(variants[k], q);
    assert i < |variants| ==> VariantMatches(variants[i], q);
  }

  /** A lower-case register token `r<n>` is a valid register operand, yet alias resolution does not see it as one. */
  lemma LowerCaseRegisterNotRegisterShaped(n: nat)
    requires n < 16
    ensures ParseRegister(ParamSize(Reg), ['r'] + DecimalText(n)) == Ok(n)
    ensures DetectParamType(['r'] + DecimalText(n)) == {Imm4, Imm8, Imm10, Addr}
  {
    Pow2Small();
    RegisterRoundTrip(ParamSize(Reg), 'r', n);
    PrefixedDecimalStripped('r', n);
  }

  /* ---------------------------------------------------------------- */
  /* Preprocessing                                                     */
  /* ---------------------------------------------------------------- */

  /** A line that survives preprocessing: its source index and its canonical text. */
  datatype ProcessedLine = ProcessedLine(lineNo: nat, text: string)

  /**
   * What preprocessing produces: the surviving lines, whose positions in
   * the sequence are their addresses, and the label table.
   */
  datatype Preprocessed = Preprocessed(lines: seq<ProcessedLine>, labels: map<string, nat>)

  /** `line.split(";")[0].strip()`. */
  function CleanLine(line: string): string {
    Strip(BeforeFirst(line, ';'))
  }

  predicate Distinct(s: seq<string>) {
    forall i, j :: 0 <= i < j < |s| ==> s[i] != s[j]
  }

  lemma DistinctAppend(a: seq<string>, b: seq<string>)
    requires Distinct(a) && Distinct(b)
    requires forall k :: 0 <= k < |b| ==> b[k] !in a
    ensures Distinct(a + b)
  {
    forall i, j | 0 <= i < j < |a + b| ensures (a + b)[i] != (a + b)[j] {
      if j < |a| {
        assert (a + b)[i] == a[i] && (a + b)[j] == a[j];
      } else if i >= |a| {
        assert (a + b)[i] == b[i - |a|] && (a + b)[j] == b[j - |a|];
      } else {
        assert (a + b)[j] == b[j - |a|] && (a + b)[i] == a[i];
      }
    }
  }

  /**
   * Binds each label to `address`, in order. A label that is already bound,
   * earlier in the file or earlier on the same line, is a duplicate.
   */
  function BindLabels(labels: map<string, nat>, found: seq<string>, address: nat, lineNo: nat): (r: Result<map<string, nat>, AssemblyError>)
    ensures r.Err? ==> r.error.kind == DuplicateLabel && r.error.line == lineNo
    decreases |found|
  {
    if |found| == 0 then Ok(labels)
    else
      var prefix := found[..|found| - 1];
      var last := found[|found| - 1];
      match BindLabels(labels, prefix, address, lineNo)
      case Err(e) => Err(e)
      case Ok(bound) =>
        if last in bound then Err(AssemblyError(DuplicateLabel, lineNo, Some(last)))
        else Ok(bound[last := address])
  }

  /**
   * Binding succeeds exactly when the labels are distinct and none is bound
   * already; the table then holds the old labels unchanged and every new
   * one at `address`.
   */
  lemma {:induction false} BoundLabels(labels: map<string, nat>, found: seq<string>, address: nat, lineNo: nat)
    ensures var r := BindLabels(labels, found, address, lineNo);
      r.Ok? <==> Distinct(found) && forall k :: 0 <= k < |found| ==> found[k] !in labels
    ensures var r := BindLabels(labels, found, address, lineNo);
      r.Ok? ==> forall name :: name in r.value <==> name in labels || name in found
    ensures var r := BindLabels(labels, found, address, lineNo);
      r.Ok? ==> forall name | name in labels :: r.value[name] == labels[name]
    ensures var r := BindLabels(labels, found, address, lineNo);
      r.Ok? ==> forall name | name in found :: r.value[name] == address
    decreases |found|
  {
    if |found| > 0 {
      var prefix := found[..|found| - 1];
      var last := found[|found| - 1];
      assert found == prefix + [last];
      BoundLabels(labels, prefix, address, lineNo);
      FreshPrefix(labels, found);
    }
  }

  /**
   * `found[k]` is the first label of a line that is already bound: in the
   * table, or earlier on the same line, while no label before it is.
   */
  predicate FirstRebound(labels: map<string, nat>, found: seq<string>, k: nat) {
    && k < |found|
    && (found[k] in labels || found[k] in found[..k])
    && forall j :: 0 <= j < k ==> found[j] !in labels && found[j] !in found[..j]
  }

  /** A failed binding is the duplicate-label error naming the first label already bound. */
  lemma {:induction false} BindErrorNamesLabel(labels: map<string, nat>, found: seq<string>, address: nat, lineNo: nat)
    ensures var r := BindLabels(labels, found, address, lineNo);
      r.Err? ==> exists k: nat :: FirstRebound(labels, found, k) && r.error == AssemblyError(DuplicateLabel, lineNo, Some(found[k]))
    decreases |found|
  {
    if |found| > 0 {
      var prefix := found[..|found| - 1];
      var last := found[|found| - 1];
      var before := BindLabels(labels, prefix, address, lineNo);
      if before.Err? {
        BindErrorNamesLabel(labels, prefix, address, lineNo);
        var k: nat :| FirstRebound(labels, prefix, k) && before.error == AssemblyError(DuplicateLabel, lineNo, Some(prefix[k]));
        ReboundInPrefix(labels, found, k);
      } else if last in before.value {
        BoundLabels(labels, prefix, address, lineNo);
        assert found == prefix + [last];
        LastRebound(labels, prefix, last);
      }
    }
  }

  /** The first rebound label of a prefix is the first rebound label of the whole line. */
  lemma ReboundInPrefix(labels: map<string, nat>, found: seq<string>, k: nat)
    requires |found| > 0 && FirstRebound(labels, found[..|found| - 1], k)
    ensures FirstRebound(labels, found, k)
  {
    var prefix := found[..|found| - 1];
    assert found[..k] == prefix[..k];
    forall j | 0 <= j < k ensures found[j] !in labels && found[j] !in found[..j] {
      assert found[..j] == prefix[..j];
    }
  }

  /** When the earlier labels are distinct and unbound, a last label among them or in the table is the first rebound one. */
  lemma LastRebound(labels: map<string, nat>, prefix: seq<string>, last: string)
    requires Distinct(prefix) && forall k :: 0 <= k < |prefix| ==> prefix[k] !in labels
    requires last in labels || last in prefix
    ensures FirstRebound(labels, prefix + [last], |prefix|)
  {
    var found := prefix + [last];
    assert found[..|prefix|] == prefix;
    forall j | 0 <= j < |prefix| ensures found[j] !in labels && found[j] !in found[..j] {
      assert found[j] == prefix[j];
      assert found[..j] == prefix[..j];
    }
  }

  /** Labels that are distinct and all unbound stay so when the last is dropped. */
  lemma FreshPrefix(labels: map<string, nat>, found: seq<string>)
    requires |found| > 0
    ensures var prefix := found[..|found| - 1];
      Distinct(found) && (forall k :: 0 <= k < |found| ==> found[k] !in labels) ==>
        Distinct(prefix) && forall k :: 0 <= k < |prefix| ==> prefix[k] !in labels
  {
    var prefix := found[..|found| - 1];
    if Distinct(found) && (forall k :: 0 <= k < |found| ==> found[k] !in labels) {
      forall i, j | 0 <= i < j < |prefix| ensures prefix[i] != prefix[j] {
        assert prefix[i] == found[i] && prefix[j] == found[j];
      }
      forall k | 0 <= k < |prefix| ensures prefix[k] !in labels {
        assert prefix[k] == found[k];
      }
    }
  }

  /** A failure to bind a prefix of a line's labels is the failure of the whole line. */
  lemma {:induction false} BindErrorPersists(labels: map<string, nat>, found: seq<string>, k: nat, m: nat, address: nat, lineNo: nat)
    requires k <= m <= |found|
    requires BindLabels(labels, found[..k], address, lineNo).Err?
    ensures BindLabels(labels, found[..m], address, lineNo) == BindLabels(labels, found[..k], address, lineNo)
    decreases m
  {
    if m > k {
      BindErrorPersists(labels, found, k, m - 1, address, lineNo);
      assert found[..m][..m - 1] == found[..m - 1];
    }
  }

  /** The text of a statement once an aliased mnemonic is replaced by its resolved variant. */
  function Canonical(statement: string, lineNo: nat, aliases: map<string, seq<string>>): (r: Result<string, AssemblyError>)
    requires WellFormedAliases(aliases)
    ensures SplitLine(statement).0 !in aliases ==> r == Ok(statement)
    ensures SplitLine(statement).0 in aliases ==>
      (r.Err? <==> ResolveAlias(aliases[SplitLine(statement).0], SplitLine(statement).1).None?)
    ensures r.Err? ==> r.error == AssemblyError(NoAliasVariant(aliases[SplitLine(statement).0]), lineNo, None)
    ensures SplitLine(statement).0 in aliases && r.Ok? ==>
      r.value == JoinComma([ResolveAlias(aliases[SplitLine(statement).0], SplitLine(statement).1).value] + SplitLine(statement).1)
    ensures r.Ok? && statement != [] ==> r.value != []
  {
    var split := SplitLine(statement);
    var instr, params := split.0, split.1;
    if instr in aliases then
      match ResolveAlias(aliases[instr], params)
      case Some(variant) =>
        var text := JoinComma([variant] + params);
        assert text != [] by {
          if |params| > 0 {
            assert text == variant + "," + JoinComma(params);
          } else {
            assert text == variant;
            MnemonicsNonEmpty();
          }
        }
        Ok(text)
      case None => Err(AssemblyError(NoAliasVariant(aliases[instr]), lineNo, None))
    else Ok(statement)
  }

  lemma MnemonicsNonEmpty()
    ensures "" !in INSTRUCTIONS
  {
  }

  /** An upper-case letter. */
  predicate Capital(c: char) {
    'A' <= c <= 'Z'
  }

  /** A mnemonic of one to four upper-case letters. */
  predicate CapitalWord(name: string) {
    && 1 <= |name| <= 4
    && Capital(name[0])
    && (|name| > 1 ==> Capital(name[1]))
    && (|name| > 2 ==> Capital(name[2]))
    && (|name| > 3 ==> Capital(name[3]))
  }

  /** Every mnemonic of the opcode table is one to four upper-case letters. */
  lemma MnemonicsCapital()
    ensures forall name | name in INSTRUCTIONS :: CapitalWord(name)
  {
    CapitalBelow();
    CapitalFrom();
  }

  /** The moves, control transfers, branches and calls (opcodes below 0x20). */
  lemma CapitalBelow()
    ensures forall name | name in INSTRUCTIONS && INSTRUCTIONS[name].opcode < 0x20 :: CapitalWord(name)
  {
  }

  /** The arithmetic and logic instructions (opcodes from 0x20). */
  lemma CapitalFrom()
    ensures forall name | name in INSTRUCTIONS && INSTRUCTIONS[name].opcode >= 0x20 :: CapitalWord(name)
  {
  }

  /** A capital word is non-empty and made of upper-case letters only. */
  lemma CapitalLetters(name: string)
    requires CapitalWord(name)
    ensures name != [] && forall k :: 0 <= k < |name| ==> Capital(name[k])
  {
  }

  /** Every mnemonic of the opcode table is one operand-free token: non-empty, with no comma or whitespace. */
  lemma MnemonicsAreTokens(name: string)
    requires name in INSTRUCTIONS
    ensures name != [] && NoSeparator(name)
  {
    MnemonicsCapital();
    CapitalLetters(name);
    UpperCaseWord(name);
  }

  /**
   * A rewritten statement reads back as the resolved variant followed by
   * the statement's own operand tokens, unchanged and in order.
   */
  lemma CanonicalSplits(statement: string, lineNo: nat, aliases: map<string, seq<string>>)
    requires WellFormedAliases(aliases)
    requires SplitLine(statement).0 in aliases && Canonical(statement, lineNo, aliases).Ok?
    ensures SplitLine(Canonical(statement, lineNo, aliases).value) ==
      (ResolveAlias(aliases[SplitLine(statement).0], SplitLine(statement).1).value, SplitLine(statement).1)
  {
    var split := SplitLine(statement);
    var variants := aliases[split.0];
    var variant := ResolveAlias(variants, split.1).value;
    assert variant in INSTRUCTIONS;
    MnemonicsAreTokens(variant);
    var parts := [variant] + split.1;
    assert [split.0] + split.1 == SplitOnSeparators(statement);
    assert SplitShaped(parts) by {
      forall k | 0 < k < |parts| - 1 ensures parts[k] != [] {
        assert parts[k] == ([split.0] + split.1)[k];
      }
      forall k | 0 <= k < |parts| ensures NoSeparator(parts[k]) {
        if k > 0 {
          assert parts[k] == ([split.0] + split.1)[k];
        }
      }
    }
    SplitJoinComma(parts);
  }

  /**
   * A rewritten statement names the resolved variant's opcode-table entry
   * and carries exactly as many operand tokens as that entry takes, so the
   * second pass never rejects it for its mnemonic or its operand count.
   */
  lemma CanonicalParses(statement: string, lineNo: nat, aliases: map<string, seq<string>>, at: nat)
    requires WellFormedAliases(aliases)
    requires SplitLine(statement).0 in aliases && Canonical(statement, lineNo, aliases).Ok?
    ensures var text := Canonical(statement, lineNo, aliases).value;
      var variant := ResolveAlias(aliases[SplitLine(statement).0], SplitLine(statement).1).value;
      ParseOp(SplitLine(text).0, at) == Ok(Concrete(INSTRUCTIONS[variant])) &&
      Arity(Concrete(INSTRUCTIONS[variant])) == |SplitLine(text).1|
  {
    var variant := ResolveAlias(aliases[SplitLine(statement).0], SplitLine(statement).1).value;
    CanonicalSplits(statement, lineNo, aliases);
    MnemonicsCapital();
    CapitalLetters(variant);
    UpperCaseWord(variant);
  }

  /**
   * What preprocessing reads off one source line: the line without its
   * comment, the labels it defines in order, the statement left once the
   * labels are removed (empty when there is none), and that statement
   * after alias rewriting.
   */
  datatype LineView = LineView(clean: string, labels: seq<string>, statement: string, text: Result<string, AssemblyError>)

  /** The facts about a view that preprocessing relies on. */
  predicate WellFormedView(v: LineView) {
    && (v.clean == [] ==> v.labels == [] && v.statement == [])
    && (v.statement != [] && v.text.Ok? ==> v.text.value != [])
  }

  /** The view of source line `lineNo`. */
  function View(line: string, lineNo: nat, aliases: map<string, seq<string>>): (v: LineView)
    requires WellFormedAliases(aliases)
    ensures v.clean == CleanLine(line)
    ensures v.labels == [] ==> v.statement == v.clean
    ensures forall k :: 0 <= k < |v.labels| ==> v.labels[k] != [] && NoSpace(v.labels[k])
    ensures v.text == Canonical(v.statement, lineNo, aliases)
    ensures WellFormedView(v)
  {
    var clean := CleanLine(line);
    var scan := ScanLabels(clean);
    var statement := if |scan.labels| > 0 then Strip(scan.residual) else clean;
    LineView(clean, scan.labels, statement, Canonical(statement, lineNo, aliases))
  }

  /** The view of every line of a source file. */
  function Views(source: seq<string>, aliases: map<string, seq<string>>): (views: seq<LineView>)
    requires WellFormedAliases(aliases)
    ensures |views| == |source|
    ensures forall k :: 0 <= k < |source| ==> WellFormedView(views[k])
  {
    seq(|source|, k requires 0 <= k < |source| => View(source[k], k, aliases))
  }

  lemma PreprocessNext(views: seq<LineView>, n: nat, st: Preprocessed)
    requires n < |views| && PreprocessUpTo(views, n) == Ok(st)
    ensures PreprocessUpTo(views, n + 1) == PreprocessLine(st, n, views[n])
  {
  }

  lemma ViewsAt(source: seq<string>, aliases: map<string, seq<string>>, i: nat)
    requires WellFormedAliases(aliases) && i < |source|
    ensures Views(source, aliases)[i] == View(source[i], i, aliases)
  {
  }

  /** One iteration of `preprocess`: the state after the source line `lineNo`, seen through its view. */
  function PreprocessLine(st: Preprocessed, lineNo: nat, v: LineView): Result<Preprocessed, AssemblyError> {
    if v.clean == [] then Ok(st)
    else
      var labels :- BindLabels(st.labels, v.labels, |st.lines|, lineNo);
      if v.statement == [] then Ok(Preprocessed(st.lines, labels))
      else
        var text :- v.text;
        Ok(Preprocessed(st.lines + [ProcessedLine(lineNo, text)], labels))
  }

  /** `preprocess` over the first `n` lines. */
  function PreprocessUpTo(views: seq<LineView>, n: nat): Result<Preprocessed, AssemblyError>
    requires n <= |views|
  {
    if n == 0 then Ok(Preprocessed([], map[]))
    else
      var st :- PreprocessUpTo(views, n - 1);
      PreprocessLine(st, n - 1, views[n - 1])
  }

  /** `preprocess` of a whole source file. */
  function PreprocessSource(source: seq<string>, aliases: map<string, seq<string>>): Result<Preprocessed, AssemblyError>
    requires WellFormedAliases(aliases)
  {
    PreprocessUpTo(Views(source, aliases), |source|)
  }

  /** Once a line fails, preprocessing fails with that line's error. */
  lemma {:induction false} PreprocessErrorPersists(views: seq<LineView>, n: nat, m: nat)
    requires n <= m <= |views|
    requires PreprocessUpTo(views, n).Err?
    ensures PreprocessUpTo(views, m).Err?
    ensures PreprocessUpTo(views, m).error == PreprocessUpTo(views, n).error
    decreases m
  {
    if m > n {
      PreprocessErrorPersists(views, n, m - 1);
      PreprocessErrorStep(views, m);
    }
  }

  /** A failure before line `m - 1` is the outcome after it too. */
  lemma PreprocessErrorStep(views: seq<LineView>, m: nat)
    requires 0 < m <= |views| && PreprocessUpTo(views, m - 1).Err?
    ensures PreprocessUpTo(views, m).Err?
    ensures PreprocessUpTo(views, m).error == PreprocessUpTo(views, m - 1).error
  {
  }

  /** The number of lines among the first `n` that hold a statement. */
  function CountStatements(views: seq<LineView>, n: nat): nat
    requires n <= |views|
  {
    if n == 0 then 0 else CountStatements(views, n - 1) + (if views[n - 1].statement != [] then 1 else 0)
  }

  /** Every label the first `n` lines define, in order of definition. */
  function AllLabels(views: seq<LineView>, n: nat): seq<string>
    requires n <= |views|
  {
    if n == 0 then [] else AllLabels(views, n - 1) + views[n - 1].labels
  }

  /**
   * The processed lines after `n` source lines: one per statement, in
   * source order, each holding the rewritten text of its statement, which
   * is never empty.
   */
  ghost predicate LinesAddressed(views: seq<LineView>, n: nat, lines: seq<ProcessedLine>)
    requires n <= |views|
  {
    && |lines| == CountStatements(views, n)
    && (forall k :: 0 <= k < |lines| ==> lines[k].lineNo < n)
    && (forall k :: 0 <= k < |lines| ==>
          views[lines[k].lineNo].statement != [] && views[lines[k].lineNo].text == Ok(lines[k].text))
    && (forall k :: 0 <= k < |lines| ==> lines[k].text != [])
    && (forall a, b :: 0 <= a < b < |lines| ==> lines[a].lineNo < lines[b].lineNo)
  }

  /** Line `j` defines the label `name`. */
  predicate DefinesLabel(views: seq<LineView>, j: int, name: string) {
    0 <= j < |views| && name in views[j].labels
  }

  /**
   * The label table after `n` source lines: every label is defined once,
   * and is bound to the number of statements before the line defining it.
   */
  ghost predicate LabelsAddressed(views: seq<LineView>, n: nat, labels: map<string, nat>)
    requires n <= |views|
  {
    && Distinct(AllLabels(views, n))
    && (forall name :: name in labels <==> name in AllLabels(views, n))
    && (forall j, name {:trigger DefinesLabel(views, j, name)} | 0 <= j < n && DefinesLabel(views, j, name) ::
          name in labels && labels[name] == CountStatements(views, j))
  }

  lemma LinesStep(views: seq<LineView>, n: nat, st: Preprocessed, st': Preprocessed)
    requires n < |views| && WellFormedView(views[n])
    requires LinesAddressed(views, n, st.lines)
    requires PreprocessLine(st, n, views[n]) == Ok(st')
    ensures LinesAddressed(views, n + 1, st'.lines)
  {
    var v := views[n];
    if v.clean == [] || v.statement == [] {
      assert st'.lines == st.lines;
    } else {
      assert st'.lines == st.lines + [ProcessedLine(n, v.text.value)];
    }
  }

  lemma LabelsStep(views: seq<LineView>, n: nat, st: Preprocessed, st': Preprocessed)
    requires n < |views| && WellFormedView(views[n])
    requires |st.lines| == CountStatements(views, n)
    requires LabelsAddressed(views, n, st.labels)
    requires PreprocessLine(st, n, views[n]) == Ok(st')
    ensures LabelsAddressed(views, n + 1, st'.labels)
  {
    assert AllLabels(views, n + 1) == AllLabels(views, n) + views[n].labels;
    if views[n].clean == [] {
      assert st' == st;
    } else {
      var bound := BindLabels(st.labels, views[n].labels, |st.lines|, n);
      BoundLabels(st.labels, views[n].labels, |st.lines|, n);
      assert bound.Ok? && st'.labels == bound.value;
      DistinctAppend(AllLabels(views, n), views[n].labels);
      LabelValuesStep(views, n, st.labels, bound.value);
    }
  }

  lemma LabelValuesStep(views: seq<LineView>, n: nat, labels: map<string, nat>, labels': map<string, nat>)
    requires n < |views|
    requires forall j, name {:trigger DefinesLabel(views, j, name)} | 0 <= j < n && DefinesLabel(views, j, name) ::
      name in labels && labels[name] == CountStatements(views, j)
    requires forall name | name in labels :: name in labels' && labels'[name] == labels[name]
    requires forall name | name in views[n].labels :: name in labels' && labels'[name] == CountStatements(views, n)
    ensures forall j, name {:trigger DefinesLabel(views, j, name)} | 0 <= j < n + 1 && DefinesLabel(views, j, name) ::
      name in labels' && labels'[name] == CountStatements(views, j)
  {
  }

  /** Preprocessing that succeeds on the first `n` lines leaves its lines and its labels addressed. */
  lemma {:induction false} PreprocessAddressed(views: seq<LineView>, n: nat)
    requires n <= |views|
    requires forall k :: 0 <= k < |views| ==> WellFormedView(views[k])
    requires PreprocessUpTo(views, n).Ok?
    ensures LinesAddressed(views, n, PreprocessUpTo(views, n).value.lines)
    ensures LabelsAddressed(views, n, PreprocessUpTo(views, n).value.labels)
    decreases n
  {
    if n > 0 {
      PreprocessAddressed(views, n - 1);
      var st := PreprocessUpTo(views, n - 1).value;
      var st' := PreprocessUpTo(views, n).value;
      LinesStep(views, n - 1, st, st');
      LabelsStep(views, n - 1, st, st');
    }
  }

  /**
   * `preprocess` of a whole file, when it succeeds: the processed lines are
   * the statements in source order, with line numbers strictly increasing
   * and non-empty rewritten text; each label is defined once and bound to
   * the number of statements above its line.
   */
  lemma PreprocessedSource(source: seq<string>, aliases: map<string, seq<string>>)
    requires WellFormedAliases(aliases)
    requires PreprocessSource(source, aliases).Ok?
    ensures LinesAddressed(Views(source, aliases), |source|, PreprocessSource(source, aliases).value.lines)
    ensures LabelsAddressed(Views(source, aliases), |source|, PreprocessSource(source, aliases).value.labels)
  {
    PreprocessAddressed(Views(source, aliases), |source|);
  }

  /** A label defined twice, on one line or on two, makes preprocessing fail. */
  lemma DuplicateLabelFails(views: seq<LineView>, i: nat, j: nat)
    requires forall k :: 0 <= k < |views| ==> WellFormedView(views[k])
    requires i < j < |AllLabels(views, |views|)|
    requires AllLabels(views, |views|)[i] == AllLabels(views, |views|)[j]
    ensures PreprocessUpTo(views, |views|).Err?
  {
    if PreprocessUpTo(views, |views|).Ok? {
      PreprocessAddressed(views, |views|);
    }
  }

  /**
   * When the lines above `n` preprocess and line `n` defines a label that
   * is already bound, preprocessing stops at line `n` with the
   * duplicate-label error naming the first such label.
   */
  lemma DuplicateLabelError(views: seq<LineView>, n: nat, k: nat)
    requires n < |views| && WellFormedView(views[n]) && PreprocessUpTo(views, n).Ok?
    requires FirstRebound(PreprocessUpTo(views, n).value.labels, views[n].labels, k)
    ensures PreprocessUpTo(views, n + 1) == Err(AssemblyError(DuplicateLabel, n, Some(views[n].labels[k])))
  {
    var st := PreprocessUpTo(views, n).value;
    var found := views[n].labels;
    PreprocessNext(views, n, st);
    BoundLabels(st.labels, found, |st.lines|, n);
    var r := BindLabels(st.labels, found, |st.lines|, n);
    if r.Err? {
      BindErrorNamesLabel(st.labels, found, |st.lines|, n);
      var m: nat :| FirstRebound(st.labels, found, m) && r.error == AssemblyError(DuplicateLabel, n, Some(found[m]));
      FirstReboundUnique(st.labels, found, k, m);
    }
  }

  /** There is one first rebound label. */
  lemma FirstReboundUnique(labels: map<string, nat>, found: seq<string>, k: nat, m: nat)
    requires FirstRebound(labels, found, k) && FirstRebound(labels, found, m)
    ensures k == m
  {
  }

  /** A blank, comment-only or label-only line emits nothing, so the next address stays where it was. */
  lemma SkippedLineEmitsNothing(views: seq<LineView>, n: nat)
    requires n < |views| && views[n].statement == []
    requires PreprocessUpTo(views, n + 1).Ok?
    ensures PreprocessUpTo(views, n).Ok?
    ensures PreprocessUpTo(views, n + 1).value.lines == PreprocessUpTo(views, n).value.lines
  {
  }

  /** The label loop of `preprocess`: binds each label of a line to the current address. */
  method BindFoundLabels(labels: map<string, nat>, found: seq<string>, address: nat, lineNo: nat) returns (r: Result<map<string, nat>, AssemblyError>)
    ensures r == BindLabels(labels, found, address, lineNo)
  {
    var bound := labels;
    for k := 0 to |found|
      invariant BindLabels(labels, found[..k], address, lineNo) == Ok(bound)
    {
      var name := found[k];
      assert found[..k + 1][..k] == found[..k];
      if name in bound {
        BindErrorPersists(labels, found, k + 1, |found|, address, lineNo);
        assert found[..|found|] == found;
        return Err(AssemblyError(DuplicateLabel, lineNo, Some(name)));
      }
      bound := bound[name := address];
    }
    assert found[..|found|] == found;
    return Ok(bound);
  }

  /** The alias step of `preprocess`: an aliased mnemonic is replaced by the variant its operands select. */
  method RewriteAlias(statement: string, lineNo: nat, aliases: map<string, seq<string>>) returns (r: Result<string, AssemblyError>)
    requires WellFormedAliases(aliases)
    ensures r == Canonical(statement, lineNo, aliases)
  {
    var split := SplitLine(statement);
    var instr, params := split.0, split.1;
    if instr !in aliases {
      return Ok(statement);
    }
    var realInstr := ResolveInstrAlias(aliases[instr], params);
    if realInstr.None? {
      return Err(AssemblyError(NoAliasVariant(aliases[instr]), lineNo, None));
    }
    return Ok(JoinComma([realInstr.value] + params));
  }

  /**
   * The body of the loop of `preprocess`: strips the comment, binds the
   * labels to the current address, and emits the statement, if any, once
   * its alias is resolved.
   */
  method PreprocessOneLine(processedLines: seq<ProcessedLine>, labels: map<string, nat>, address: nat, lineNo: nat, line: string, aliases: map<string, seq<string>>)
    returns (r: Result<Preprocessed, AssemblyError>)
    requires WellFormedAliases(aliases) && address == |processedLines|
    ensures r == PreprocessLine(Preprocessed(processedLines, labels), lineNo, View(line, lineNo, aliases))
    ensures r.Ok? ==> r.value.lines == processedLines || |r.value.lines| == address + 1
  {
    ghost var view := View(line, lineNo, aliases);
    var cleanLine := CleanLine(line);
    if cleanLine == [] {
      return Ok(Preprocessed(processedLines, labels));
    }
    var scan := ScanLabels(cleanLine);
    assert view.labels == scan.labels;
    var bound := labels;
    if |scan.labels| > 0 {
      var result := BindFoundLabels(labels, scan.labels, address, lineNo);
      if result.Err? {
        return Err(result.error);
      }
      bound := result.value;
      cleanLine := Strip(scan.residual);
      if cleanLine == [] {
        return Ok(Preprocessed(processedLines, bound));
      }
    }
    assert view.statement == cleanLine;
    var text := RewriteAlias(cleanLine, lineNo, aliases);
    if text.Err? {
      return Err(text.error);
    }
    return Ok(Preprocessed(processedLines + [ProcessedLine(lineNo, text.value)], bound));
  }

  /** `preprocess`. */
  method Preprocess(source: seq<string>, aliases: map<string, seq<string>>) returns (r: Result<Preprocessed, AssemblyError>)
    requires WellFormedAliases(aliases)
    ensures r == PreprocessSource(source, aliases)
  {
    ghost var views := Views(source, aliases);
    var processedLines: seq<ProcessedLine> := [];
    var address: nat := 0;
    var labels: map<string, nat> := map[];
    for i := 0 to |source|
      invariant PreprocessUpTo(views, i) == Ok(Preprocessed(processedLines, labels))
      invariant address == |processedLines|
    {
      var next := PreprocessOneLine(processedLines, labels, address, i, source[i], aliases);
      PreprocessNext(views, i, Preprocessed(processedLines, labels));
      ViewsAt(source, aliases, i);
      if next.Err? {
        r := next;
        PreprocessErrorPersists(views, i + 1, |source|);
        return;
      }
      if next.value.lines != processedLines {
        address := address + 1;
      }
      processedLines, labels := next.value.lines, next.value.labels;
    }
    r := Ok(Preprocessed(processedLines, labels));
  }

  /* ---------------------------------------------------------------- */
  /* Encoding                                                          */
  /* ---------------------------------------------------------------- */

  /** Every opcode-table entry has an opcode that fits its field and a layout that fits the word. */
  lemma EntryFits(name: string)
    requires name in INSTRUCTIONS
    ensures INSTRUCTIONS[name].opcode < Pow2(OPCODE_SIZE)
    ensures Fits(WORD_FORMAT, Widths(Layout(INSTRUCTIONS[name].params)))
  {
    OpcodesFit();
    LayoutsFit();
  }

  /**
   * The second half of `assemble_line`, once the operand count is right:
   * the pseudo-instruction runs, or the operands are encoded behind the
   * opcode. Every word fits in 31 bits.
   */
  function OperandsWord(op: Op, params: seq<string>, labels: map<string, nat>, lineNo: nat): (r: Result<nat, AssemblyError>)
    requires Encodable(op) && Arity(op) == |params|
    ensures r.Ok? ==> r.value < Pow2(INSTRUCTION_SIZE)
  {
    match op
    case Pseudo(p) => Apply(p, params, lineNo)
    case Concrete(info) => Encode(WORD_FORMAT, info.opcode, Layout(info.params), params, labels, lineNo)
  }

  /**
   * `assemble_line`: the mnemonic is looked up and the operand count checked
   * against what it expects before any operand is read. Every word fits in
   * 31 bits.
   */
  function LineWord(line: ProcessedLine, labels: map<string, nat>): (r: Result<nat, AssemblyError>)
    ensures r.Ok? ==> r.value < Pow2(INSTRUCTION_SIZE)
  {
    var split := SplitLine(line.text);
    var op :- ParseOp(split.0, line.lineNo);
    if Arity(op) != |split.1| then Err(AssemblyError(ParamCount(Arity(op), |split.1|), line.lineNo, None))
    else OperandsWord(op, split.1, labels, line.lineNo)
  }

  /** The operand half of `assemble_line`. */
  method AssembleOperands(op: Op, params: seq<string>, labels: map<string, nat>, lineNo: nat) returns (r: Result<nat, AssemblyError>)
    requires Encodable(op) && Arity(op) == |params|
    ensures r == OperandsWord(op, params, labels, lineNo)
  {
    match op
    case Pseudo(p) =>
      r := Apply(p, params, lineNo);
    case Concrete(info) =>
      r := EncodeOperands(WORD_FORMAT, info.opcode, Layout(info.params), params, labels, lineNo);
  }

  /** `assemble_line`. */
  method AssembleLine(line: ProcessedLine, labels: map<string, nat>) returns (r: Result<nat, AssemblyError>)
    ensures r == LineWord(line, labels)
  {
    var split := SplitLine(line.text);
    var instr, params := split.0, split.1;
    var instrInfo := ParseOp(instr, line.lineNo);
    if instrInfo.Err? {
      return Err(instrInfo.error);
    }
    var expectedParams := Arity(instrInfo.value);
    if expectedParams != |params| {
      return Err(AssemblyError(ParamCount(expectedParams, |params|), line.lineNo, None));
    }
    r := AssembleOperands(instrInfo.value, params, labels, line.lineNo);
  }

  /**
   * A line whose mnemonic is a machine instruction and which assembles has
   * one token per operand of the entry, and its word is the encoding of
   * those tokens behind the entry's opcode, so it decodes back to them by
   * `Encoding.EncodedWordDecodes`.
   */
  lemma ConcreteLineDecodes(line: ProcessedLine, labels: map<string, nat>, info: InstructionInfo, word: nat)
    requires ParseOp(SplitLine(line.text).0, line.lineNo) == Ok(Concrete(info))
    requires LineWord(line, labels) == Ok(word)
    ensures |SplitLine(line.text).1| == |info.params|
    ensures info.opcode < Pow2(OPCODE_SIZE) && Fits(WORD_FORMAT, Widths(Layout(info.params)))
    ensures Encode(WORD_FORMAT, info.opcode, Layout(info.params), SplitLine(line.text).1, labels, line.lineNo) == Ok(word)
  {
  }

  /**
   * The mnemonic is checked before any operand is read: an unknown mnemonic,
   * or a known one given the wrong number of operands, fails the same way
   * whatever the operands say and whatever the labels are.
   */
  lemma RejectedBeforeOperands(instr: string, params: seq<string>, lineNo: nat, labels: map<string, nat>)
    requires SplitShaped([instr] + params)
    ensures ParseOp(instr, lineNo).Err? ==>
      LineWord(ProcessedLine(lineNo, JoinComma([instr] + params)), labels) == Err(AssemblyError(UnknownInstruction, lineNo, Some(instr)))
    ensures ParseOp(instr, lineNo).Ok? && Arity(ParseOp(instr, lineNo).value) != |params| ==>
      LineWord(ProcessedLine(lineNo, JoinComma([instr] + params)), labels) ==
        Err(AssemblyError(ParamCount(Arity(ParseOp(instr, lineNo).value), |params|), lineNo, None))
  {
    SplitJoinComma([instr] + params);
  }

  /* ---------------------------------------------------------------- */
  /* Whole files                                                       */
  /* ---------------------------------------------------------------- */

  /** The outcome of `assemble_line` on every processed line, in order. */
  function LineWords(lines: seq<ProcessedLine>, labels: map<string, nat>): (words: seq<Result<nat, AssemblyError>>)
    ensures |words| == |lines|
    ensures forall k :: 0 <= k < |lines| ==> words[k] == LineWord(lines[k], labels)
  {
    seq(|lines|, k requires 0 <= k < |lines| => LineWord(lines[k], labels))
  }

  /**
   * The machine code of the processed lines: one word per line, in order,
   * each below 2^31; or the failure of the first line that does not
   * assemble.
   */
  function AssembleAll(lines: seq<ProcessedLine>, labels: map<string, nat>): (r: Result<seq<nat>, AssemblyError>)
    ensures r.Ok? <==> forall k :: 0 <= k < |lines| ==> LineWord(lines[k], labels).Ok?
    ensures r.Ok? ==> |r.value| == |lines|
    ensures r.Ok? ==> forall k :: 0 <= k < |lines| ==> r.value[k] == LineWord(lines[k], labels).value
    ensures r.Ok? ==> forall k :: 0 <= k < |lines| ==> r.value[k] < Pow2(INSTRUCTION_SIZE)
    ensures r.Err? ==>
      exists k :: FirstFailure(LineWords(lines, labels), k) && r.error == LineWords(lines, labels)[k].error
  {
    AllOk(LineWords(lines, labels))
  }

  /** `assemble` on the lines of a file: preprocess, then assemble every processed line against the final label table. */
  function AssembleSource(source: seq<string>, aliases: map<string, seq<string>>): Result<seq<nat>, AssemblyError>
    requires WellFormedAliases(aliases)
  {
    var st :- PreprocessSource(source, aliases);
    AssembleAll(st.lines, st.labels)
  }

  /** `assemble`, once the file has been read into lines. */
  method Assemble(source: seq<string>, aliases: map<string, seq<string>>) returns (r: Result<seq<nat>, AssemblyError>)
    requires WellFormedAliases(aliases)
    ensures r == AssembleSource(source, aliases)
  {
    var preprocessed := Preprocess(source, aliases);
    if preprocessed.Err? {
      return Err(preprocessed.error);
    }
    r := AssembleLines(preprocessed.value.lines, preprocessed.value.labels);
  }

  /**
   * The loop of `assemble`: each processed line in turn, stopping at the
   * first that fails; that is, the outcome `AssembleAll` describes.
   */
  method AssembleLines(processedLines: seq<ProcessedLine>, labels: map<string, nat>) returns (r: Result<seq<nat>, AssemblyError>)
    ensures r == AllOk(LineWords(processedLines, labels))
  {
    ghost var words := LineWords(processedLines, labels);
    var machineCode: seq<nat> := [];
    for k := 0 to |processedLines|
      invariant AllOk(words[..k]) == Ok(machineCode)
    {
      var binary := AssembleLine(processedLines[k], labels);
      assert binary == words[k];
      AllOkNext(words, k, machineCode);
      if binary.Err? {
        return Err(binary.error);
      }
      machineCode := machineCode + [binary.value];
    }
    AllOkWhole(words, machineCode);
    r := Ok(machineCode);
  }

  /**
   * A file that assembles gives one word per statement line, and the word
   * at index `k` is the assembly of the `k`-th statement, in source order.
   */
  lemma MachineCodePerStatement(source: seq<string>, aliases: map<string, seq<string>>)
    requires WellFormedAliases(aliases) && AssembleSource(source, aliases).Ok?
    ensures var st := PreprocessSource(source, aliases).value;
      var code := AssembleSource(source, aliases).value;
      && |code| == CountStatements(Views(source, aliases), |source|)
      && forall k :: 0 <= k < |code| ==> code[k] == LineWord(st.lines[k], st.labels).value
  {
    PreprocessedSource(source, aliases);
  }

  /**
   * Labels resolve wherever they are used, before their definition as well
   * as after it: an address operand naming a label defined on line `j`
   * reads the number of statements above line `j`, when that fits the
   * field.
   */
  lemma LabelResolvesAnywhere(source: seq<string>, aliases: map<string, seq<string>>, j: nat, name: string, width: nat)
    requires WellFormedAliases(aliases) && PreprocessSource(source, aliases).Ok?
    requires DefinesLabel(Views(source, aliases), j, name)
    ensures var count := CountStatements(Views(source, aliases), j);
      ParseAddress(width, name, PreprocessSource(source, aliases).value.labels) ==
        if count < Pow2(width) then Ok(count) else Err(OutOfRange(Address, MaxValue(width)))
  {
    PreprocessedSource(source, aliases);
  }

  /** Statement counts only grow down the file. */
  lemma {:induction false} CountMonotone(views: seq<LineView>, m: nat, n: nat)
    requires m <= n <= |views|
    ensures CountStatements(views, m) <= CountStatements(views, n)
    decreases n
  {
    if m < n {
      CountMonotone(views, m, n - 1);
    }
  }

  /**
   * Among the processed lines, those from source lines above `m` are
   * exactly the first `CountStatements(views, m)`.
   */
  lemma {:induction false} StatementsBefore(views: seq<LineView>, n: nat, m: nat)
    requires m <= n <= |views|
    requires forall k :: 0 <= k < |views| ==> WellFormedView(views[k])
    requires PreprocessUpTo(views, n).Ok?
    ensures var lines := PreprocessUpTo(views, n).value.lines;
      forall i :: 0 <= i < |lines| ==> (lines[i].lineNo < m <==> i < CountStatements(views, m))
    decreases n
  {
    PreprocessAddressed(views, n);
    if m < n {
      var lines := PreprocessUpTo(views, n - 1).value.lines;
      var lines' := PreprocessUpTo(views, n).value.lines;
      StatementsBefore(views, n - 1, m);
      PreprocessAddressed(views, n - 1);
      CountMonotone(views, m, n - 1);
      assert lines' == lines || lines' == lines + [ProcessedLine(n - 1, views[n - 1].text.value)];
    }
  }

  /**
   * A label addresses the first statement at or below its line: the word
   * at the label's value comes from a line at or after the label's, and
   * the word just before it from a line above.
   */
  lemma LabelAddressesNextStatement(source: seq<string>, aliases: map<string, seq<string>>, j: nat, name: string)
    requires WellFormedAliases(aliases) && PreprocessSource(source, aliases).Ok?
    requires DefinesLabel(Views(source, aliases), j, name)
    ensures var st := PreprocessSource(source, aliases).value;
      && name in st.labels
      && (st.labels[name] < |st.lines| ==> st.lines[st.labels[name]].lineNo >= j)
      && (0 < st.labels[name] <= |st.lines| ==> st.lines[st.labels[name] - 1].lineNo < j)
  {
    var views := Views(source, aliases);
    PreprocessedSource(source, aliases);
    StatementsBefore(views, |source|, j);
  }

  /* ---------------------------------------------------------------- */
  /* Worked examples                                                   */
  /* ---------------------------------------------------------------- */

  /** A mnemonic, a space, then comma-separated operand tokens: `split_line` gives them back. */
  lemma SplitStatement(name: string, params: seq<string>)
    requires NoSeparator(name) && SplitShaped(params) && params[0] != []
    ensures SplitLine(name + " " + JoinComma(params)) == (name, params)
  {
    SplitJoinComma(params);
    JoinCommaStart(params);
    assert JoinComma(params) != [] by {
      if |params| > 1 {
        assert JoinComma(params)[0] == params[0][0];
      }
    }
    assert name + " " + JoinComma(params) == name + [' '] + JoinComma(params);
    SplitAfterWord(name, ' ', JoinComma(params));
  }

  /** The text `R<n>` that names register `n`. */
  function RegisterText(n: nat): (t: string)
    ensures t != [] && t[0] == 'R' && NoSeparator(t)
  {
    DecimalTextNoSeparator(n);
    ['R'] + DecimalText(n)
  }

  /** The token `R<n>` of a register that fits reads as register `n`. */
  lemma RegisterToken(n: nat)
    requires n < 16
    ensures ParseRegister(4, RegisterText(n)) == Ok(n)
  {
    Pow2Small();
    RegisterRoundTrip(4, 'R', n);
  }

  /** Three register operands take three four-bit register fields. */
  lemma ThreeRegisterLayout()
    ensures Layout([Reg, Reg, Reg]) == [Slot(RegisterField, 4), Slot(RegisterField, 4), Slot(RegisterField, 4)]
    ensures Widths(Layout([Reg, Reg, Reg])) == [4, 4, 4]
  {
    var slots := Layout([Reg, Reg, Reg]);
    assert slots[0] == SlotOf(Reg) && slots[1] == SlotOf(Reg) && slots[2] == SlotOf(Reg);
    var ws := Widths(slots);
    assert ws[0] == 4 && ws[1] == 4 && ws[2] == 4;
  }

  /** Three tokens that read as registers `a`, `b` and `c` fill three four-bit register fields with them. */
  lemma RegisterOperands(ta: string, tb: string, tc: string, a: nat, b: nat, c: nat, labels: map<string, nat>, lineNo: nat)
    requires ParseRegister(4, ta) == Ok(a) && ParseRegister(4, tb) == Ok(b) && ParseRegister(4, tc) == Ok(c)
    ensures Widths(Layout([Reg, Reg, Reg])) == [4, 4, 4]
    ensures ParseOperands(Layout([Reg, Reg, Reg]), [ta, tb, tc], labels, lineNo) == Ok([a, b, c])
  {
    ThreeRegisterLayout();
    var r4 := Slot(RegisterField, 4);
    ParsedTriple(r4, r4, r4, ta, tb, tc, a, b, c, labels, lineNo);
  }

  /** The word of a seven-bit opcode and three four-bit fields `a`, `b` and `c`, laid out from the top of 31 bits. */
  function RegisterWord(opcode: nat, a: nat, b: nat, c: nat): nat {
    opcode * 0x100_0000 + a * 0x10_0000 + b * 0x1_0000 + c * 0x1000
  }

  /** Three four-bit fields behind a seven-bit opcode, aligned to the top of a 31-bit word. */
  lemma RegisterFieldsPack(opcode: nat, a: nat, b: nat, c: nat)
    ensures Fits(WORD_FORMAT, [4, 4, 4])
    ensures PackWord(WORD_FORMAT, opcode, [4, 4, 4], [a, b, c]) == RegisterWord(opcode, a, b, c)
  {
    Pow2Small();
    Pow2Medium();
    assert [4, 4, 4][..2] == [4, 4] && [4, 4][..1] == [4] && [4][..0] == [];
    assert [a, b, c][..2] == [a, b] && [a, b][..1] == [a] && [a][..0] == [];
    assert TotalWidth([4, 4, 4]) == 12;
    var acc0 := Accumulate(opcode, [], []);
    assert acc0 == opcode;
    var acc1 := Accumulate(opcode, [4], [a]);
    assert acc1 == ShiftIn(acc0, 4, a);
    var acc2 := Accumulate(opcode, [4, 4], [a, b]);
    assert acc2 == ShiftIn(acc1, 4, b);
    var acc3 := Accumulate(opcode, [4, 4, 4], [a, b, c]);
    assert acc3 == ShiftIn(acc2, 4, c);
    assert PackWord(WORD_FORMAT, opcode, [4, 4, 4], [a, b, c]) == acc3 * 0x1000;
  }

  /**
   * A line whose mnemonic parses to `op` and that has as many operands as
   * `op` expects assembles to what `op` makes of those operands.
   */
  lemma StatementWord(line: ProcessedLine, name: string, params: seq<string>, op: Op, labels: map<string, nat>)
    requires SplitLine(line.text) == (name, params)
    requires ParseOp(name, line.lineNo) == Ok(op) && Arity(op) == |params|
    ensures Encodable(op)
    ensures LineWord(line, labels) == OperandsWord(op, params, labels, line.lineNo)
  {
  }

  /** An opcode that fits, with three register operands, is encodable, and its word is the encoding of three four-bit fields. */
  lemma RegisterOperandsWord(opcode: nat, params: seq<string>, labels: map<string, nat>, lineNo: nat)
    requires opcode < 128 && |params| == 3
    ensures Encodable(Concrete(InstructionInfo(opcode, [Reg, Reg, Reg])))
    ensures OperandsWord(Concrete(InstructionInfo(opcode, [Reg, Reg, Reg])), params, labels, lineNo) ==
      Encode(WORD_FORMAT, opcode, Layout([Reg, Reg, Reg]), params, labels, lineNo)
  {
    Pow2Medium();
    ThreeRegisterLayout();
    RegisterFieldsPack(opcode, 0, 0, 0);
  }

  /** Three tokens that read as registers `a`, `b` and `c` encode behind an opcode that fits as the three values packed in four bits each. */
  lemma RegisterFieldsEncode(opcode: nat, ta: string, tb: string, tc: string, a: nat, b: nat, c: nat, lineNo: nat, labels: map<string, nat>)
    requires opcode < 128
    requires ParseRegister(4, ta) == Ok(a) && ParseRegister(4, tb) == Ok(b) && ParseRegister(4, tc) == Ok(c)
    ensures Fits(WORD_FORMAT, [4, 4, 4]) && Widths(Layout([Reg, Reg, Reg])) == [4, 4, 4]
    ensures Encode(WORD_FORMAT, opcode, Layout([Reg, Reg, Reg]), [ta, tb, tc], labels, lineNo) ==
      Ok(PackWord(WORD_FORMAT, opcode, [4, 4, 4], [a, b, c]))
  {
    Pow2Medium();
    RegisterOperands(ta, tb, tc, a, b, c, labels, lineNo);
    RegisterFieldsPack(opcode, 0, 0, 0);
    EncodeParsed(WORD_FORMAT, opcode, Layout([Reg, Reg, Reg]), [ta, tb, tc], labels, lineNo, [a, b, c]);
  }

  /**
   * An instruction of three register operands encodes its three register
   * numbers in four-bit fields behind its opcode, whatever the labels.
   */
  lemma ThreeRegisterWord(opcode: nat, ta: string, tb: string, tc: string, a: nat, b: nat, c: nat, lineNo: nat, labels: map<string, nat>)
    requires opcode < 128
    requires ParseRegister(4, ta) == Ok(a) && ParseRegister(4, tb) == Ok(b) && ParseRegister(4, tc) == Ok(c)
    ensures Encodable(Concrete(InstructionInfo(opcode, [Reg, Reg, Reg]))) && Fits(WORD_FORMAT, [4, 4, 4])
    ensures OperandsWord(Concrete(InstructionInfo(opcode, [Reg, Reg, Reg])), [ta, tb, tc], labels, lineNo) ==
      Ok(PackWord(WORD_FORMAT, opcode, [4, 4, 4], [a, b, c]))
  {
    RegisterOperandsWord(opcode, [ta, tb, tc], labels, lineNo);
    RegisterFieldsEncode(opcode, ta, tb, tc, a, b, c, lineNo, labels);
  }

  /** The word of a seven-bit opcode and one ten-bit address field `v`, laid out from the top of 31 bits. */
  function AddressOnlyWord(opcode: nat, v: nat): nat {
    opcode * 0x100_0000 + v * 0x4000
  }

  /** One ten-bit field behind a seven-bit opcode, aligned to the top of a 31-bit word. */
  lemma AddressFieldPack(opcode: nat, v: nat)
    ensures Fits(WORD_FORMAT, [10])
    ensures PackWord(WORD_FORMAT, opcode, [10], [v]) == AddressOnlyWord(opcode, v)
  {
    Pow2Medium();
    assert [10][..0] == [] && [v][..0] == [];
    assert TotalWidth([10]) == 10;
    var acc := Accumulate(opcode, [10], [v]);
    assert acc == ShiftIn(Accumulate(opcode, [], []), 10, v);
    assert PackWord(WORD_FORMAT, opcode, [10], [v]) == acc * 0x4000;
  }

  /** An address operand that parses to `v` packs below the opcode, in the ten bits under it. */
  lemma AddressFieldEncodes(opcode: nat, token: string, labels: map<string, nat>, lineNo: nat, v: nat)
    requires opcode < 128 && ParseAddress(10, token, labels) == Ok(v)
    ensures Encode(WORD_FORMAT, opcode, [SlotOf(Addr)], [token], labels, lineNo) == Ok(AddressOnlyWord(opcode, v))
  {
    var slot := SlotOf(Addr);
    assert slot == Slot(AddressField, 10);
    assert ParseField(slot, token, labels) == Ok(v);
    Pow2Medium();
    EncodeSingle(WORD_FORMAT, opcode, slot, token, labels, lineNo);
    AddressFieldPack(opcode, v);
  }

  /** An address operand that does not parse fails the word with the parser's error, at the token. */
  lemma AddressFieldFails(opcode: nat, token: string, labels: map<string, nat>, lineNo: nat)
    requires opcode < 128 && ParseAddress(10, token, labels).Err?
    ensures Encode(WORD_FORMAT, opcode, [SlotOf(Addr)], [token], labels, lineNo) ==
      Err(AssemblyError(ParseAddress(10, token, labels).error, lineNo, Some(token)))
  {
    Pow2Medium();
    EncodeSingle(WORD_FORMAT, opcode, SlotOf(Addr), token, labels, lineNo);
  }

  /** An opcode that fits, with one address operand, is encodable, and its word is the encoding of one ten-bit address field. */
  lemma AddressOperandsWord(opcode: nat, token: string, labels: map<string, nat>, lineNo: nat)
    requires opcode < 128
    ensures Encodable(Concrete(InstructionInfo(opcode, [Addr])))
    ensures OperandsWord(Concrete(InstructionInfo(opcode, [Addr])), [token], labels, lineNo) ==
      Encode(WORD_FORMAT, opcode, [SlotOf(Addr)], [token], labels, lineNo)
  {
    Pow2Medium();
    assert Layout([Addr]) == [SlotOf(Addr)];
    AddressFieldPack(opcode, 0);
  }

  /**
   * An instruction of one address operand encodes to its opcode in the top
   * seven bits and the address in the ten bits below it when the token is a
   * label or literal that fits.
   */
  lemma AddressWord(opcode: nat, token: string, lineNo: nat, labels: map<string, nat>, v: nat)
    requires opcode < 128 && ParseAddress(10, token, labels) == Ok(v)
    ensures Encodable(Concrete(InstructionInfo(opcode, [Addr])))
    ensures OperandsWord(Concrete(InstructionInfo(opcode, [Addr])), [token], labels, lineNo) == Ok(AddressOnlyWord(opcode, v))
  {
    AddressOperandsWord(opcode, token, labels, lineNo);
    AddressFieldEncodes(opcode, token, labels, lineNo, v);
  }

  /**
   * An instruction of one address operand whose token is neither a label nor
   * a literal that fits fails with the address parser's error, located at
   * the token.
   */
  lemma AddressWordFails(opcode: nat, token: string, lineNo: nat, labels: map<string, nat>)
    requires opcode < 128 && ParseAddress(10, token, labels).Err?
    ensures Encodable(Concrete(InstructionInfo(opcode, [Addr])))
    ensures OperandsWord(Concrete(InstructionInfo(opcode, [Addr])), [token], labels, lineNo) ==
      Err(AssemblyError(ParseAddress(10, token, labels).error, lineNo, Some(token)))
  {
    AddressOperandsWord(opcode, token, labels, lineNo);
    AddressFieldFails(opcode, token, labels, lineNo);
  }

  /** A token of upper-case letters is looked up exactly as written. */
  lemma UpperCaseWord(name: string)
    requires forall k :: 0 <= k < |name| ==> 'A' <= name[k] <= 'Z'
    ensures NoSeparator(name) && Mnemonic(name) == name
  {
    assert NoSpace(name);
    StripNoSpace(name);
    assert ToUpper(name) == name;
  }

  /** A three-letter upper-case token is looked up exactly as written. */
  lemma UpperCaseMnemonic(a: char, b: char, c: char)
    requires 'A' <= a <= 'Z' && 'A' <= b <= 'Z' && 'A' <= c <= 'Z'
    ensures NoSeparator([a, b, c]) && Mnemonic([a, b, c]) == [a, b, c]
  {
    var name := [a, b, c];
    forall k | 0 <= k < |name| ensures 'A' <= name[k] <= 'Z' {
    }
    UpperCaseWord(name);
  }

  /** `JMP` names opcode 0x10, which takes one address. */
  lemma JumpMnemonic(lineNo: nat)
    ensures NoSeparator("JMP")
    ensures ParseOp("JMP", lineNo) == Ok(Concrete(InstructionInfo(0x10, [Addr])))
  {
    UpperCaseMnemonic('J', 'M', 'P');
    JumpAndAddEntries();
  }

  /** `ADD` names opcode 0x20, which takes three registers. */
  lemma AddMnemonic(lineNo: nat)
    ensures NoSeparator("ADD")
    ensures ParseOp("ADD", lineNo) == Ok(Concrete(InstructionInfo(0x20, [Reg, Reg, Reg])))
  {
    UpperCaseMnemonic('A', 'D', 'D');
    JumpAndAddEntries();
  }

  /** The token `0` reads as address 0 when no label is named `0`. */
  lemma JumpOperandToken(labels: map<string, nat>)
    requires "0" !in labels
    ensures ParseAddress(10, "0", labels) == Ok(0)
  {
    assert DecimalText(0) == "0";
    AddressRoundTrip(10, 0, labels);
  }

  /**
   * `JMP 0`: the mnemonic names opcode 0x10 with one address operand, and
   * the operand encodes to 268435456 on any line, unless a label is named
   * `0`.
   */
  lemma JumpExample(lineNo: nat, labels: map<string, nat>)
    requires "0" !in labels
    ensures ParseOp("JMP", lineNo) == Ok(Concrete(InstructionInfo(0x10, [Addr])))
    ensures Encodable(Concrete(InstructionInfo(0x10, [Addr])))
    ensures OperandsWord(Concrete(InstructionInfo(0x10, [Addr])), ["0"], labels, lineNo) == Ok(268435456)
  {
    JumpMnemonic(lineNo);
    JumpOperandToken(labels);
    AddressWord(0x10, "0", lineNo, labels, 0);
  }

  /**
   * An instruction of three register operands encodes to its opcode in the
   * top seven bits followed by the three register numbers in four bits
   * each.
   */
  lemma ThreeRegisterValue(opcode: nat, ta: string, tb: string, tc: string, a: nat, b: nat, c: nat, lineNo: nat, labels: map<string, nat>)
    requires opcode < 128
    requires ParseRegister(4, ta) == Ok(a) && ParseRegister(4, tb) == Ok(b) && ParseRegister(4, tc) == Ok(c)
    ensures Encodable(Concrete(InstructionInfo(opcode, [Reg, Reg, Reg])))
    ensures OperandsWord(Concrete(InstructionInfo(opcode, [Reg, Reg, Reg])), [ta, tb, tc], labels, lineNo) ==
      Ok(RegisterWord(opcode, a, b, c))
  {
    ThreeRegisterWord(opcode, ta, tb, tc, a, b, c, lineNo, labels);
    RegisterFieldsPack(opcode, a, b, c);
  }

  /** The token `R<d>` of a one-digit register number reads as that register. */
  lemma DigitRegisterToken(d: nat, t: string)
    requires d < 10 && t == ['R', ('0' as int + d) as char]
    ensures ParseRegister(4, t) == Ok(d)
  {
    DigitRegisterText(d, t);
    RegisterToken(d);
  }

  /** `R` followed by one digit is how `str` writes a one-digit register number. */
  lemma DigitRegisterText(d: nat, t: string)
    requires d < 10 && t == ['R', ('0' as int + d) as char]
    ensures t == RegisterText(d)
  {
    assert DecimalText(d) == [DecimalDigit(d)];
  }

  /** The tokens `R1`, `R2` and `R3` read as registers 1, 2 and 3. */
  lemma AddOperandTokens()
    ensures ParseRegister(4, "R1") == Ok(1) && ParseRegister(4, "R2") == Ok(2) && ParseRegister(4, "R3") == Ok(3)
  {
    DigitRegisterToken(1, "R1");
    DigitRegisterToken(2, "R2");
    DigitRegisterToken(3, "R3");
  }

  /**
   * `ADD R1,R2,R3`: the mnemonic names opcode 0x20 with three register
   * operands, and the operands encode to 538062848 on any line and whatever
   * the labels.
   */
  lemma AddExample(lineNo: nat, labels: map<string, nat>)
    ensures ParseOp("ADD", lineNo) == Ok(Concrete(InstructionInfo(0x20, [Reg, Reg, Reg])))
    ensures Encodable(Concrete(InstructionInfo(0x20, [Reg, Reg, Reg])))
    ensures OperandsWord(Concrete(InstructionInfo(0x20, [Reg, Reg, Reg])), ["R1", "R2", "R3"], labels, lineNo) == Ok(538062848)
  {
    AddMnemonic(lineNo);
    AddOperandTokens();
    ThreeRegisterValue(0x20, "R1", "R2", "R3", 1, 2, 3, lineNo, labels);
  }

  /** The operand tokens `R1`, `R2` and `R3` joined with commas. */
  lemma AddOperandsText()
    ensures JoinComma(["R1", "R2", "R3"]) == "R1,R2,R3"
  {
    assert JoinComma(["R3"]) == "R3";
    assert ["R1", "R2", "R3"][1..] == ["R2", "R3"] && ["R2", "R3"][1..] == ["R3"];
    assert JoinComma(["R2", "R3"]) == "R2" + "," + "R3";
  }

  /** The line `ADD R1,R2,R3` splits into its mnemonic and its three operand tokens. */
  lemma AddLineSplits()
    ensures SplitLine("ADD R1,R2,R3") == ("ADD", ["R1", "R2", "R3"])
  {
    var params := ["R1", "R2", "R3"];
    assert NoSeparator("ADD");
    assert SplitShaped(params) by {
      forall k | 0 <= k < 3 ensures NoSeparator(params[k]) {
        assert |params[k]| == 2 && params[k][0] == 'R';
      }
    }
    AddOperandsText();
    assert "ADD" + " " + JoinComma(params) == "ADD R1,R2,R3";
    SplitStatement("ADD", params);
  }

  /** The statement `ADD R1,R2,R3` assembles to 538062848 on any line and whatever the labels. */
  lemma AddLine(lineNo: nat, labels: map<string, nat>)
    ensures LineWord(ProcessedLine(lineNo, "ADD R1,R2,R3"), labels) == Ok(538062848)
  {
    AddLineSplits();
    AddExample(lineNo, labels);
    StatementWord(ProcessedLine(lineNo, "ADD R1,R2,R3"), "ADD", ["R1", "R2", "R3"], Concrete(InstructionInfo(0x20, [Reg, Reg, Reg])), labels);
  }

  /** The line `JMP 0` splits into its mnemonic and its one operand token. */
  lemma JumpLineSplits()
    ensures SplitLine("JMP 0") == ("JMP", ["0"])
  {
    assert NoSeparator("JMP") && NoSeparator("0");
    assert JoinComma(["0"]) == "0";
    assert "JMP" + " " + JoinComma(["0"]) == "JMP 0";
    SplitStatement("JMP", ["0"]);
  }

  /** The statement `JMP 0` assembles to 268435456 on any line, unless a label is named `0`. */
  lemma JumpLine(lineNo: nat, labels: map<string, nat>)
    requires "0" !in labels
    ensures LineWord(ProcessedLine(lineNo, "JMP 0"), labels) == Ok(268435456)
  {
    JumpLineSplits();
    JumpExample(lineNo, labels);
    StatementWord(ProcessedLine(lineNo, "JMP 0"), "JMP", ["0"], Concrete(InstructionInfo(0x10, [Addr])), labels);
  }
}
