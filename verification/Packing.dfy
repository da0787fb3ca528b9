/**
 * The bit packing of an instruction word, on unbounded naturals.
 *
 * The encoder starts from the opcode and, for each operand in declared
 * order, shifts the accumulator left by the operand's width and ORs the
 * operand in; it then shifts the result left so that the fields sit in the
 * high-order bits of the word. A shift by `w` is a multiplication by
 * `Pow2(w)`; the OR is modelled as Python computes it (`BitOr`) and proved
 * equal to addition for a field that is already range-checked.
 */
module Packing {

  function Pow2(n: nat): (r: nat)
    ensures r >= 1
  {
    if n == 0 then 1 else 2 * Pow2(n - 1)
  }

  lemma {:induction false} Pow2Add(a: nat, b: nat)
    ensures Pow2(a + b) == Pow2(a) * Pow2(b)
  {
    if a > 0 {
      Pow2Add(a - 1, b);
      assert Pow2(a + b) == 2 * Pow2(a - 1 + b);
    }
  }

  /** The powers of two the instruction formats use. */
  lemma Pow2Small()
    ensures Pow2(1) == 2 && Pow2(2) == 4 && Pow2(3) == 8 && Pow2(4) == 16
  {
    assert Pow2(1) == 2 * Pow2(0);
    assert Pow2(2) == 2 * Pow2(1);
    assert Pow2(3) == 2 * Pow2(2);
    assert Pow2(4) == 2 * Pow2(3);
  }

  lemma Pow2Medium()
    ensures Pow2(7) == 128 && Pow2(8) == 256 && Pow2(10) == 1024 && Pow2(12) == 4096 && Pow2(14) == 0x4000
  {
    Pow2Small();
    Pow2Add(4, 3);
    Pow2Add(4, 4);
    Pow2Add(8, 2);
    Pow2Add(8, 4);
    Pow2Add(10, 4);
  }

  lemma Pow2Large()
    ensures Pow2(24) == 0x100_0000 && Pow2(31) == 0x8000_0000
  {
    Pow2Medium();
    Pow2Add(12, 12);
    Pow2Add(24, 7);
  }

  lemma MulMono(a: nat, b: nat, c: nat)
    requires a <= b
    ensures a * c <= b * c
  {}

  lemma Distribute(q: nat, b: nat, r: nat, a: nat)
    ensures (q * b + r) * a == q * (a * b) + r * a
  {}

  /** Euclidean division is unique: a quotient and a remainder in range are the quotient and the remainder. */
  lemma DivModUnique(x: nat, d: nat, q: nat, r: nat)
    requires d >= 1 && r < d && x == q * d + r
    ensures x / d == q && x % d == r
  {
    var q', r' := x / d, x % d;
    assert x == q' * d + r';
    if q' > q {
      MulMono(q + 1, q', d);
      assert false;
    } else if q' < q {
      MulMono(q' + 1, q, d);
      assert false;
    }
  }

  /** Two right shifts in a row are one shift by the sum. */
  lemma DivDiv(x: nat, a: nat, b: nat)
    requires a >= 1 && b >= 1
    ensures x / (a * b) == (x / a) / b
  {
    var q1, r1 := x / a, x % a;
    var q2, r2 := q1 / b, q1 % b;
    assert x == q1 * a + r1;
    assert q1 == q2 * b + r2;
    Distribute(q2, b, r2, a);
    MulMono(r2, b - 1, a);
    assert (b - 1) * a == b * a - a;
    var ab := a * b;
    assert x == q2 * ab + (r2 * a + r1);
    assert r2 * a + r1 < ab;
    DivModUnique(x, ab, q2, r2 * a + r1);
  }

  /** Python's `a | b` on non-negative integers, bit by bit from the least significant one. */
  function BitOr(a: nat, b: nat): nat
    decreases a + b
  {
    if a == 0 then b
    else if b == 0 then a
    else 2 * BitOr(a / 2, b / 2) + (if a % 2 == 1 || b % 2 == 1 then 1 else 0)
  }

  /** ORing a range-checked field into bits that a shift has just cleared is an addition. */
  lemma {:induction false} OrIntoFreeBits(a: nat, w: nat, v: nat)
    requires v < Pow2(w)
    ensures BitOr(a * Pow2(w), v) == a * Pow2(w) + v
  {
    if w > 0 && a != 0 && v != 0 {
      var half := a * Pow2(w - 1);
      assert a * Pow2(w) == 2 * half;
      assert half >= 1;
      assert (2 * half) / 2 == half && (2 * half) % 2 == 0;
      OrIntoFreeBits(a, w - 1, v / 2);
      assert BitOr(2 * half, v) == 2 * BitOr(half, v / 2) + v % 2;
    }
  }

  /** The shape of an instruction word: the opcode width and the word width. */
  datatype Format = Format(opcodeSize: nat, wordSize: nat)

  /** The number of bits the operand fields take. */
  function TotalWidth(ws: seq<nat>): nat {
    if |ws| == 0 then 0 else TotalWidth(ws[..|ws| - 1]) + ws[|ws| - 1]
  }

  /** Every operand value fits the width of its field. */
  predicate FieldsFit(ws: seq<nat>, vs: seq<nat>) {
    |ws| == |vs| && forall i :: 0 <= i < |ws| ==> vs[i] < Pow2(ws[i])
  }

  /** The opcode and the fields fit in one word, so the final alignment shift is not negative. */
  predicate Fits(f: Format, ws: seq<nat>) {
    f.opcodeSize + TotalWidth(ws) <= f.wordSize
  }

  /** The number of zero bits below the last field. */
  function Padding(f: Format, ws: seq<nat>): nat
    requires Fits(f, ws)
  {
    f.wordSize - f.opcodeSize - TotalWidth(ws)
  }

  /** `(acc << w) | v` for a field `v` already known to fit in `w` bits. */
  function ShiftIn(acc: nat, w: nat, v: nat): nat {
    acc * Pow2(w) + v
  }

  /** The accumulator after every field is shifted in, before the alignment shift. */
  function Accumulate(opcode: nat, ws: seq<nat>, vs: seq<nat>): nat
    requires |ws| == |vs|
  {
    if |ws| == 0 then opcode
    else ShiftIn(Accumulate(opcode, ws[..|ws| - 1], vs[..|vs| - 1]), ws[|ws| - 1], vs[|vs| - 1])
  }

  /** The left-aligned instruction word. */
  function PackWord(f: Format, opcode: nat, ws: seq<nat>, vs: seq<nat>): nat
    requires |ws| == |vs| && Fits(f, ws)
  {
    ShiftIn(Accumulate(opcode, ws, vs), Padding(f, ws), 0)
  }

  /** `x << w`. */
  function ShiftLeft(x: nat, w: nat): nat {
    x * Pow2(w)
  }

  /** A natural number divided by a positive one is a natural number. */
  lemma QuotientNatural(x: nat, d: nat)
    requires d >= 1
    ensures x / d >= 0
  {
  }

  /** `x >> w`. */
  function ShiftRight(x: nat, w: nat): nat {
    var d := Pow2(w);
    QuotientNatural(x, d);
    x / d
  }

  /** `x & ((1 << w) - 1)`. */
  function LowBits(x: nat, w: nat): (r: nat)
    ensures r < Pow2(w)
  {
    x % Pow2(w)
  }

  /** Shift-and-mask decoding of an accumulator: the last field is the low bits, the opcode what is left. */
  function Unpack(acc: nat, ws: seq<nat>): (fields: (nat, seq<nat>))
    ensures FieldsFit(ws, fields.1)
  {
    if |ws| == 0 then (acc, [])
    else
      var w := ws[|ws| - 1];
      var rest := Unpack(ShiftRight(acc, w), ws[..|ws| - 1]);
      var fields := (rest.0, rest.1 + [LowBits(acc, w)]);
      assert forall i :: 0 <= i < |ws| - 1 ==> fields.1[i] == rest.1[i];
      fields
  }

  /** Decoding a word of a given operand layout: drop the padding, then unpack. */
  function Decode(f: Format, word: nat, ws: seq<nat>): (nat, seq<nat>)
    requires Fits(f, ws)
  {
    Unpack(ShiftRight(word, Padding(f, ws)), ws)
  }

  /** Shifting an in-range field into an in-range accumulator widens the range by the field width. */
  lemma ShiftInBound(acc: nat, k: nat, w: nat, v: nat)
    requires acc < Pow2(k) && v < Pow2(w)
    ensures ShiftIn(acc, w, v) < Pow2(k + w)
  {
    MulMono(acc, Pow2(k) - 1, Pow2(w));
    Pow2Add(k, w);
  }

  /** The field shifted in last is the low bits; the accumulator before it is what a right shift leaves. */
  lemma ShiftInSplit(acc: nat, w: nat, v: nat)
    requires v < Pow2(w)
    ensures ShiftRight(ShiftIn(acc, w, v), w) == acc
    ensures LowBits(ShiftIn(acc, w, v), w) == v
  {
    DivModUnique(ShiftIn(acc, w, v), Pow2(w), acc, v);
  }

  /** Shifting the low bits back in after a right shift rebuilds the number. */
  lemma ShiftInRebuild(x: nat, w: nat)
    ensures ShiftIn(ShiftRight(x, w), w, LowBits(x, w)) == x
  {
  }

  /** Two right shifts in a row are one right shift by the sum of the distances. */
  lemma ShiftRightTwice(x: nat, a: nat, b: nat)
    ensures ShiftRight(ShiftRight(x, a), b) == ShiftRight(x, a + b)
  {
    DivDiv(x, Pow2(a), Pow2(b));
    Pow2Add(a, b);
  }

  /** The fields of a prefix of the operands fit when all of them do. */
  lemma FieldsFitPrefix(ws: seq<nat>, vs: seq<nat>, n: nat)
    requires FieldsFit(ws, vs) && n <= |ws|
    ensures FieldsFit(ws[..n], vs[..n])
  {
    forall i | 0 <= i < n ensures vs[..n][i] < Pow2(ws[..n][i]) {
      assert vs[..n][i] == vs[i] && ws[..n][i] == ws[i];
    }
  }

  /** An accumulator built from an opcode of `k` bits and in-range fields has `k` plus the field widths bits. */
  lemma {:induction false} AccumulateBound(opcode: nat, k: nat, ws: seq<nat>, vs: seq<nat>)
    requires opcode < Pow2(k) && FieldsFit(ws, vs)
    ensures Accumulate(opcode, ws, vs) < Pow2(k + TotalWidth(ws))
    decreases |ws|
  {
    if |ws| > 0 {
      var n := |ws| - 1;
      FieldsFitPrefix(ws, vs, n);
      AccumulateBound(opcode, k, ws[..n], vs[..n]);
      ShiftInBound(Accumulate(opcode, ws[..n], vs[..n]), k + TotalWidth(ws[..n]), ws[n], vs[n]);
    }
  }

  /** Unpacking an accumulator built from in-range fields gives back the opcode and the fields. */
  lemma {:induction false} UnpackAccumulate(opcode: nat, ws: seq<nat>, vs: seq<nat>)
    requires FieldsFit(ws, vs)
    ensures Unpack(Accumulate(opcode, ws, vs), ws) == (opcode, vs)
    decreases |ws|
  {
    if |ws| > 0 {
      var n := |ws| - 1;
      FieldsFitPrefix(ws, vs, n);
      ShiftInSplit(Accumulate(opcode, ws[..n], vs[..n]), ws[n], vs[n]);
      UnpackAccumulate(opcode, ws[..n], vs[..n]);
      assert vs[..n] + [vs[n]] == vs;
    }
  }

  /** Packing what was unpacked rebuilds the accumulator. */
  lemma {:induction false} AccumulateUnpack(acc: nat, ws: seq<nat>)
    ensures |Unpack(acc, ws).1| == |ws|
    ensures Accumulate(Unpack(acc, ws).0, ws, Unpack(acc, ws).1) == acc
    decreases |ws|
  {
    if |ws| > 0 {
      var n := |ws| - 1;
      var rest := Unpack(ShiftRight(acc, ws[n]), ws[..n]);
      AccumulateUnpack(ShiftRight(acc, ws[n]), ws[..n]);
      var fields := Unpack(acc, ws);
      assert fields.1[..n] == rest.1;
      ShiftInRebuild(acc, ws[n]);
    }
  }

  /** What is left above the fields is the accumulator shifted right by their total width. */
  lemma {:induction false} UnpackOpcode(acc: nat, ws: seq<nat>)
    ensures Unpack(acc, ws).0 == ShiftRight(acc, TotalWidth(ws))
    decreases |ws|
  {
    if |ws| > 0 {
      var n := |ws| - 1;
      UnpackOpcode(ShiftRight(acc, ws[n]), ws[..n]);
      ShiftRightTwice(acc, ws[n], TotalWidth(ws[..n]));
    }
  }

  /**
   * Packing an in-range opcode and in-range fields gives a word that fits the
   * word width, whose padding bits are zero, whose top `opcodeSize` bits are
   * the opcode and which decodes to exactly the opcode and the fields.
   */
  lemma PackWordDecodes(f: Format, opcode: nat, ws: seq<nat>, vs: seq<nat>)
    requires FieldsFit(ws, vs) && Fits(f, ws) && opcode < Pow2(f.opcodeSize)
    ensures PackWord(f, opcode, ws, vs) < Pow2(f.wordSize)
    ensures LowBits(PackWord(f, opcode, ws, vs), Padding(f, ws)) == 0
    ensures ShiftRight(PackWord(f, opcode, ws, vs), f.wordSize - f.opcodeSize) == opcode
    ensures Decode(f, PackWord(f, opcode, ws, vs), ws) == (opcode, vs)
  {
    var acc := Accumulate(opcode, ws, vs);
    var pad := Padding(f, ws);
    AccumulateBound(opcode, f.opcodeSize, ws, vs);
    ShiftInBound(acc, f.opcodeSize + TotalWidth(ws), pad, 0);
    ShiftInSplit(acc, pad, 0);
    UnpackAccumulate(opcode, ws, vs);
    UnpackOpcode(acc, ws);
    ShiftRightTwice(PackWord(f, opcode, ws, vs), pad, TotalWidth(ws));
  }

  /** Conversely, a word whose padding bits are zero is the packing of its own decoding. */
  lemma DecodePacks(f: Format, word: nat, ws: seq<nat>)
    requires Fits(f, ws) && LowBits(word, Padding(f, ws)) == 0
    ensures |Decode(f, word, ws).1| == |ws|
    ensures PackWord(f, Decode(f, word, ws).0, ws, Decode(f, word, ws).1) == word
  {
    AccumulateUnpack(ShiftRight(word, Padding(f, ws)), ws);
    ShiftInRebuild(word, Padding(f, ws));
  }
}
