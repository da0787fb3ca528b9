/**
 * The operand loop of `assemble_line`, shared by both assemblers: each
 * operand token is read by the parser its field selects and shifted into an
 * accumulator that starts as the opcode; the accumulator is finally shifted
 * left so the instruction sits at the top of the word.
 */
module Encoding {
  import opened Diagnostics
  import opened Packing
  import opened Operands

  /** What the parser of each field makes of its token, with the failing token attached. */
  function FieldResults(slots: seq<Slot>, params: seq<string>, labels: map<string, nat>, lineNo: nat): (results: seq<Result<nat, AssemblyError>>)
    requires |slots| == |params|
    ensures |results| == |params|
    ensures forall k :: 0 <= k < |params| ==> results[k] == Located(ParseField(slots[k], params[k], labels), lineNo, params[k])
  {
    seq(|params|, k requires 0 <= k < |params| => Located(ParseField(slots[k], params[k], labels), lineNo, params[k]))
  }

  /**
   * The operand values of a layout, parsed left to right: every token must
   * parse, each value fits its field, and the first token that does not
   * parse is reported with its own text.
   */
  function ParseOperands(slots: seq<Slot>, params: seq<string>, labels: map<string, nat>, lineNo: nat): (r: Result<seq<nat>, AssemblyError>)
    requires |slots| == |params|
    ensures r.Ok? <==> forall k :: 0 <= k < |params| ==> ParseField(slots[k], params[k], labels).Ok?
    ensures r.Ok? ==> FieldsFit(Widths(slots), r.value)
    ensures r.Ok? ==> forall k :: 0 <= k < |params| ==> r.value[k] == ParseField(slots[k], params[k], labels).value
    ensures r.Err? ==>
      exists k :: FirstFailure(FieldResults(slots, params, labels, lineNo), k) &&
        r.error == AssemblyError(ParseField(slots[k], params[k], labels).error, lineNo, Some(params[k]))
  {
    AllOk(FieldResults(slots, params, labels, lineNo))
  }

  /** Operands whose every token parses to the given value parse to those values. */
  lemma ParsedOperands(slots: seq<Slot>, params: seq<string>, labels: map<string, nat>, lineNo: nat, values: seq<nat>)
    requires |slots| == |params| == |values|
    requires forall k :: 0 <= k < |params| ==> ParseField(slots[k], params[k], labels) == Ok(values[k])
    ensures ParseOperands(slots, params, labels, lineNo) == Ok(values)
  {
    var r := ParseOperands(slots, params, labels, lineNo);
    assert r.Ok?;
    assert r.value == values;
  }

  /** Three tokens that each parse to their value in their own field parse to those three values. */
  lemma ParsedTriple(s0: Slot, s1: Slot, s2: Slot, t0: string, t1: string, t2: string, v0: nat, v1: nat, v2: nat, labels: map<string, nat>, lineNo: nat)
    requires ParseField(s0, t0, labels) == Ok(v0) && ParseField(s1, t1, labels) == Ok(v1) && ParseField(s2, t2, labels) == Ok(v2)
    ensures ParseOperands([s0, s1, s2], [t0, t1, t2], labels, lineNo) == Ok([v0, v1, v2])
  {
    var slots, params, values := [s0, s1, s2], [t0, t1, t2], [v0, v1, v2];
    forall k | 0 <= k < 3 ensures ParseField(slots[k], params[k], labels) == Ok(values[k]) {
      if k == 0 {
        assert slots[k] == s0 && params[k] == t0 && values[k] == v0;
      } else if k == 1 {
        assert slots[k] == s1 && params[k] == t1 && values[k] == v1;
      } else {
        assert slots[k] == s2 && params[k] == t2 && values[k] == v2;
      }
    }
    ParsedOperands(slots, params, labels, lineNo, values);
  }

  /**
   * The instruction word of an opcode and its operand tokens: a word that
   * fits the format when every operand parses, otherwise the error of the
   * first operand that does not.
   */
  function Encode(f: Format, opcode: nat, slots: seq<Slot>, params: seq<string>, labels: map<string, nat>, lineNo: nat): (r: Result<nat, AssemblyError>)
    requires |slots| == |params| && Fits(f, Widths(slots)) && opcode < Pow2(f.opcodeSize)
    ensures r.Ok? <==> ParseOperands(slots, params, labels, lineNo).Ok?
    ensures r.Err? ==> r.error == ParseOperands(slots, params, labels, lineNo).error
    ensures r.Ok? ==> r.value < Pow2(f.wordSize)
  {
    var values :- ParseOperands(slots, params, labels, lineNo);
    PackWordDecodes(f, opcode, Widths(slots), values);
    Ok(PackWord(f, opcode, Widths(slots), values))
  }

  /**
   * A word that encodes has zero padding bits and the opcode in its top
   * bits, and decoding it gives back the opcode and the operand values.
   */
  lemma EncodeDecodes(f: Format, opcode: nat, slots: seq<Slot>, params: seq<string>, labels: map<string, nat>, lineNo: nat)
    requires |slots| == |params| && Fits(f, Widths(slots)) && opcode < Pow2(f.opcodeSize)
    requires Encode(f, opcode, slots, params, labels, lineNo).Ok?
    ensures var word := Encode(f, opcode, slots, params, labels, lineNo).value;
      && LowBits(word, Padding(f, Widths(slots))) == 0
      && ShiftRight(word, f.wordSize - f.opcodeSize) == opcode
      && Decode(f, word, Widths(slots)) == (opcode, ParseOperands(slots, params, labels, lineNo).value)
  {
    PackWordDecodes(f, opcode, Widths(slots), ParseOperands(slots, params, labels, lineNo).value);
  }

  /**
   * The word of an encoded instruction has the opcode in its top bits, and
   * decoding it gives one value per operand token, the value that token's
   * field parser reads.
   */
  lemma EncodedWordDecodes(f: Format, opcode: nat, slots: seq<Slot>, params: seq<string>, labels: map<string, nat>, lineNo: nat, word: nat)
    requires |slots| == |params| && Fits(f, Widths(slots)) && opcode < Pow2(f.opcodeSize)
    requires Encode(f, opcode, slots, params, labels, lineNo) == Ok(word)
    ensures ShiftRight(word, f.wordSize - f.opcodeSize) == opcode
    ensures Decode(f, word, Widths(slots)).0 == opcode && |Decode(f, word, Widths(slots)).1| == |params|
    ensures forall k :: 0 <= k < |params| ==> ParseField(slots[k], params[k], labels) == Ok(Decode(f, word, Widths(slots)).1[k])
  {
    EncodeDecodes(f, opcode, slots, params, labels, lineNo);
    var values := ParseOperands(slots, params, labels, lineNo).value;
    assert Decode(f, word, Widths(slots)) == (opcode, values);
  }

  /** Operands that parse to `values` encode to the word packing `values` behind the opcode. */
  lemma EncodeParsed(f: Format, opcode: nat, slots: seq<Slot>, params: seq<string>, labels: map<string, nat>, lineNo: nat, values: seq<nat>)
    requires |slots| == |params| && Fits(f, Widths(slots)) && opcode < Pow2(f.opcodeSize)
    requires ParseOperands(slots, params, labels, lineNo) == Ok(values)
    ensures |values| == |slots|
    ensures Encode(f, opcode, slots, params, labels, lineNo) == Ok(PackWord(f, opcode, Widths(slots), values))
  {
  }

  /** With a single operand, the word packs its value, or the error is that operand's, located at its token. */
  lemma EncodeSingle(f: Format, opcode: nat, slot: Slot, token: string, labels: map<string, nat>, lineNo: nat)
    requires Fits(f, [slot.width]) && opcode < Pow2(f.opcodeSize)
    ensures Widths([slot]) == [slot.width]
    ensures ParseField(slot, token, labels).Ok? ==>
      Encode(f, opcode, [slot], [token], labels, lineNo) == Ok(PackWord(f, opcode, [slot.width], [ParseField(slot, token, labels).value]))
    ensures ParseField(slot, token, labels).Err? ==>
      Encode(f, opcode, [slot], [token], labels, lineNo) == Err(AssemblyError(ParseField(slot, token, labels).error, lineNo, Some(token)))
  {
    var results := FieldResults([slot], [token], labels, lineNo);
    assert results == [Located(ParseField(slot, token, labels), lineNo, token)];
    assert results[..0] == [];
    assert Widths([slot]) == [slot.width];
    AllOkStep(results, 0);
    assert results[..1] == results;
    EncodeCollected(f, opcode, [slot], [token], labels, lineNo);
  }

  /** `Encode` in terms of the per-field results. */
  lemma EncodeCollected(f: Format, opcode: nat, slots: seq<Slot>, params: seq<string>, labels: map<string, nat>, lineNo: nat)
    requires |slots| == |params| && Fits(f, Widths(slots)) && opcode < Pow2(f.opcodeSize)
    ensures var c := AllOk(FieldResults(slots, params, labels, lineNo));
      Encode(f, opcode, slots, params, labels, lineNo) ==
        if c.Ok? then Ok(PackWord(f, opcode, Widths(slots), c.value)) else Err(c.error)
  {
  }

  /** `(binary << w) | v`, with `v` in range, shifts field `k` into the accumulator and widens it by `w`. */
  lemma AccumulateStep(opcode: nat, ws: seq<nat>, values: seq<nat>, k: nat, binary: nat, v: nat)
    requires k < |ws| && |values| == k && v < Pow2(ws[k])
    requires binary == Accumulate(opcode, ws[..k], values)
    ensures BitOr(ShiftLeft(binary, ws[k]), v) == Accumulate(opcode, ws[..k + 1], values + [v])
    ensures TotalWidth(ws[..k + 1]) == TotalWidth(ws[..k]) + ws[k]
  {
    assert ws[..k + 1][..k] == ws[..k] && (values + [v])[..k] == values;
    OrIntoFreeBits(binary, ws[k], v);
  }

  /** Operand `k` parses after the first `k` did: the collected values and the accumulator grow by it. */
  lemma FieldParsed(slots: seq<Slot>, params: seq<string>, labels: map<string, nat>, lineNo: nat,
                    opcode: nat, k: nat, values: seq<nat>, binary: nat)
    requires |slots| == |params| && k < |params| && |values| == k
    requires AllOk(FieldResults(slots, params, labels, lineNo)[..k]) == Ok(values)
    requires binary == Accumulate(opcode, Widths(slots)[..k], values)
    requires ParseField(slots[k], params[k], labels).Ok?
    ensures var v := ParseField(slots[k], params[k], labels).value;
      && AllOk(FieldResults(slots, params, labels, lineNo)[..k + 1]) == Ok(values + [v])
      && BitOr(ShiftLeft(binary, slots[k].width), v) == Accumulate(opcode, Widths(slots)[..k + 1], values + [v])
      && TotalWidth(Widths(slots)[..k + 1]) == TotalWidth(Widths(slots)[..k]) + slots[k].width
  {
    var results := FieldResults(slots, params, labels, lineNo);
    AllOkStep(results, k);
    AccumulateStep(opcode, Widths(slots), values, k, binary, ParseField(slots[k], params[k], labels).value);
  }

  /** Operand `k` is the first that does not parse: the encoding fails with its error, at its token. */
  lemma FieldFails(f: Format, opcode: nat, slots: seq<Slot>, params: seq<string>, labels: map<string, nat>, lineNo: nat,
                   k: nat, values: seq<nat>)
    requires |slots| == |params| && Fits(f, Widths(slots)) && opcode < Pow2(f.opcodeSize)
    requires k < |params| && AllOk(FieldResults(slots, params, labels, lineNo)[..k]) == Ok(values)
    requires ParseField(slots[k], params[k], labels).Err?
    ensures Encode(f, opcode, slots, params, labels, lineNo) ==
      Err(AssemblyError(ParseField(slots[k], params[k], labels).error, lineNo, Some(params[k])))
  {
    var results := FieldResults(slots, params, labels, lineNo);
    AllOkStep(results, k);
    AllOkErrorPersists(results, k + 1, |params|);
    assert results[..|params|] == results;
    EncodeCollected(f, opcode, slots, params, labels, lineNo);
  }

  /** Every operand parsed: the aligned accumulator is the encoded word. */
  lemma FieldsDone(f: Format, opcode: nat, slots: seq<Slot>, params: seq<string>, labels: map<string, nat>, lineNo: nat,
                   values: seq<nat>, binary: nat, length: nat)
    requires |slots| == |params| && Fits(f, Widths(slots)) && opcode < Pow2(f.opcodeSize)
    requires AllOk(FieldResults(slots, params, labels, lineNo)[..|params|]) == Ok(values)
    requires binary == Accumulate(opcode, Widths(slots)[..|params|], values)
    requires length == f.opcodeSize + TotalWidth(Widths(slots)[..|params|])
    ensures length <= f.wordSize
    ensures Encode(f, opcode, slots, params, labels, lineNo) == Ok(ShiftLeft(binary, f.wordSize - length))
  {
    var ws := Widths(slots);
    var results := FieldResults(slots, params, labels, lineNo);
    assert ws[..|params|] == ws;
    assert results[..|params|] == results;
    EncodeCollected(f, opcode, slots, params, labels, lineNo);
    AlignStep(f, opcode, ws, values, binary, length);
  }

  /** The final `binary <<= size - length` produces the packed word. */
  lemma AlignStep(f: Format, opcode: nat, ws: seq<nat>, values: seq<nat>, binary: nat, length: nat)
    requires |ws| == |values| && Fits(f, ws)
    requires binary == Accumulate(opcode, ws, values) && length == f.opcodeSize + TotalWidth(ws)
    ensures ShiftLeft(binary, f.wordSize - length) == PackWord(f, opcode, ws, values)
  {
  }

  /**
   * The loop of `assemble_line` over the operands and their kinds, then the
   * alignment shift.
   */
  method EncodeOperands(f: Format, opcode: nat, slots: seq<Slot>, params: seq<string>, labels: map<string, nat>, lineNo: nat)
    returns (r: Result<nat, AssemblyError>)
    requires |slots| == |params| && Fits(f, Widths(slots)) && opcode < Pow2(f.opcodeSize)
    ensures r == Encode(f, opcode, slots, params, labels, lineNo)
  {
    ghost var values: seq<nat> := [];
    var binary := opcode;
    var instructionLength := f.opcodeSize;
    for k := 0 to |params|
      invariant AllOk(FieldResults(slots, params, labels, lineNo)[..k]) == Ok(values)
      invariant |values| == k
      invariant binary == Accumulate(opcode, Widths(slots)[..k], values)
      invariant instructionLength == f.opcodeSize + TotalWidth(Widths(slots)[..k])
    {
      var value := ParseField(slots[k], params[k], labels);
      if value.Err? {
        FieldFails(f, opcode, slots, params, labels, lineNo, k, values);
        return Err(AssemblyError(value.error, lineNo, Some(params[k])));
      }
      FieldParsed(slots, params, labels, lineNo, opcode, k, values, binary);
      binary := BitOr(ShiftLeft(binary, slots[k].width), value.value);
      instructionLength := instructionLength + slots[k].width;
      values := values + [value.value];
    }
    FieldsDone(f, opcode, slots, params, labels, lineNo, values, binary, instructionLength);
    r := Ok(ShiftLeft(binary, f.wordSize - instructionLength));
  }
}
