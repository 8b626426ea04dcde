/** The RS1024 checksum (`rs1024_polymod`): the loop over 32-bit words, the
    register over GF(1024) it computes, and the errors it detects. */
module Rs1024 {
  import opened Galois

  const GENERATOR: seq<bv32> := [
    0xE0E040, 0x1C1C080, 0x3838100, 0x7070200, 0xE0E0009, 0x1C0C2412, 0x38086C24, 0x3090FC48,
    0x21B1F890, 0x3F3F120
  ]

  // -------------------------------------------------------------------------
  // The checksum as a remainder

  /** A polynomial of degree at most 2 over GF(1024), highest term first. */
  datatype Register = Register(c2: Elem, c1: Elem, c0: Elem)

  const START := Register(ZERO, ZERO, Elem(1))

  /** 14 is alpha + alpha^2 + alpha^3, the sum of the generator's roots. */
  function Times14(a: Elem): Elem {
    var b := TimesAlpha(a);
    Plus(Plus(b, TimesAlpha(b)), TimesAlpha(TimesAlpha(b)))
  }

  /** 56 is alpha^3 + alpha^4 + alpha^5, the sum of their products in pairs. */
  function Times56(a: Elem): Elem {
    TimesAlpha(TimesAlpha(Times14(a)))
  }

  /** 64 is alpha^6, their product. */
  function Times64(a: Elem): Elem {
    var b := TimesAlpha(TimesAlpha(TimesAlpha(a)));
    TimesAlpha(TimesAlpha(TimesAlpha(b)))
  }

  /** Multiply by x, add `value` and reduce modulo the generator polynomial
      `(x - alpha)(x - alpha^2)(x - alpha^3) = x^3 - 14 x^2 - 56 x - 64`. */
  function Step(r: Register, value: Elem): Register {
    Register(Plus(r.c1, Times14(r.c2)), Plus(r.c0, Times56(r.c2)), Plus(value, Times64(r.c2)))
  }

  /** The remainder left by the polynomial `r` followed by `values`. */
  function Remainder(r: Register, values: seq<bv10>): Register {
    if values == [] then r else Step(Remainder(r, values[..|values| - 1]), Elem(values[|values| - 1]))
  }

  // -------------------------------------------------------------------------
  // The loop computes the remainder

  function Add(a: bv32, b: bv32): bv32 {
    a ^ b
  }

  /** The three elements in one word, 10 bits each. */
  function Pack(a: Elem, b: Elem, c: Elem): bv32 {
    ((a.bits as bv32) << 20) ^ ((b.bits as bv32) << 10) ^ (c.bits as bv32)
  }

  function Packed(r: Register): bv32 {
    Pack(r.c2, r.c1, r.c0)
  }

  /** The generator polynomial's lower terms, times `a`. */
  function Word(a: Elem): bv32 {
    Pack(Times14(a), Times56(a), Times64(a))
  }

  /** `GENERATOR[bit]` is the generator's lower terms times alpha^bit. */
  lemma GeneratorWord(bit: bv4)
    requires bit < 10
    ensures GENERATOR[bit as int] == Word(Elem(1 << bit))
  {
  }

  lemma Times14Additive(a: Elem, b: Elem)
    ensures Times14(Plus(a, b)) == Plus(Times14(a), Times14(b))
  {
    hide Plus, TimesAlpha;
    var a1, b1 := TimesAlpha(a), TimesAlpha(b);
    var a2, b2 := TimesAlpha(a1), TimesAlpha(b1);
    TimesAlphaAdditive(a, b);
    TimesAlphaAdditive(a1, b1);
    TimesAlphaAdditive(a2, b2);
    PlusExchange(a1, b1, a2, b2);
    PlusExchange(Plus(a1, a2), Plus(b1, b2), TimesAlpha(a2), TimesAlpha(b2));
  }

  lemma Times56Additive(a: Elem, b: Elem)
    ensures Times56(Plus(a, b)) == Plus(Times56(a), Times56(b))
  {
    hide Plus, TimesAlpha, Times14;
    var a1, b1 := Times14(a), Times14(b);
    Times14Additive(a, b);
    TimesAlphaAdditive(a1, b1);
    TimesAlphaAdditive(TimesAlpha(a1), TimesAlpha(b1));
  }

  lemma Times64Additive(a: Elem, b: Elem)
    ensures Times64(Plus(a, b)) == Plus(Times64(a), Times64(b))
  {
    hide Plus, TimesAlpha;
    var a1, b1 := TimesAlpha(a), TimesAlpha(b);
    var a2, b2 := TimesAlpha(a1), TimesAlpha(b1);
    var a3, b3 := TimesAlpha(a2), TimesAlpha(b2);
    var a4, b4 := TimesAlpha(a3), TimesAlpha(b3);
    var a5, b5 := TimesAlpha(a4), TimesAlpha(b4);
    TimesAlphaAdditive(a, b);
    TimesAlphaAdditive(a1, b1);
    TimesAlphaAdditive(a2, b2);
    TimesAlphaAdditive(a3, b3);
    TimesAlphaAdditive(a4, b4);
    TimesAlphaAdditive(a5, b5);
  }

  lemma PackAdditive(a: Elem, b: Elem, c: Elem, x: Elem, y: Elem, z: Elem)
    ensures Pack(Plus(a, x), Plus(b, y), Plus(c, z)) == Add(Pack(a, b, c), Pack(x, y, z))
  {
  }

  lemma PackInjective(a: Elem, b: Elem, c: Elem, x: Elem, y: Elem, z: Elem)
    requires Pack(a, b, c) == Pack(x, y, z)
    ensures a == x && b == y && c == z
  {
  }

  lemma WordAdditive(a: Elem, b: Elem)
    ensures Word(Plus(a, b)) == Add(Word(a), Word(b))
  {
    hide Add, Plus, Pack, Times14, Times56, Times64;
    Times14Additive(a, b);
    Times56Additive(a, b);
    Times64Additive(a, b);
    PackAdditive(Times14(a), Times56(a), Times64(a), Times14(b), Times56(b), Times64(b));
  }

  /** The lowest `bits` bits of `t`. */
  function Lowest(t: bv10, bits: bv4): Elem
    requires bits <= 10
  {
    Elem(t & (0x3FF >> (10 - bits)))
  }

  lemma LowestAll(t: bv10)
    ensures Lowest(t, 0) == ZERO && Lowest(t, 10) == Elem(t)
  {
  }

  lemma LowestNext(t: bv10, bit: bv4)
    requires bit < 10 && (t >> bit) & 1 == 1
    ensures Lowest(t, bit + 1) == Plus(Lowest(t, bit), Elem(1 << bit))
  {
  }

  lemma LowestSame(t: bv10, bit: bv4)
    requires bit < 10 && (t >> bit) & 1 != 1
    ensures Lowest(t, bit + 1) == Lowest(t, bit)
  {
  }

  /** The condition of the inner loop's `if`. */
  predicate Picked(top: bv32, bit: bv4)
    requires bit < 10
  {
    (top >> bit) & 1 == 1
  }

  lemma PickedBit(t: bv10, bit: bv4)
    requires bit < 10
    ensures Picked(t as bv32, bit) == ((t >> bit) & 1 == 1)
  {
  }

  lemma AddAssociates(a: bv32, b: bv32, c: bv32)
    ensures Add(Add(a, b), c) == Add(a, Add(b, c))
  {
  }

  /** Round `bit` of the inner loop. */
  function Round(checksum: bv32, top: bv32, bit: bv4): bv32
    requires bit < 10
  {
    if Picked(top, bit) then Add(checksum, GENERATOR[bit as int]) else checksum
  }

  lemma RoundAddsWord(checksum: bv32, t: bv10, bit: bv4)
    requires bit < 10
    ensures Round(Add(checksum, Word(Lowest(t, bit))), t as bv32, bit)
         == Add(checksum, Word(Lowest(t, bit + 1)))
  {
    hide Add, Plus, Word, Lowest, Picked;
    PickedBit(t, bit);
    if (t >> bit) & 1 == 1 {
      LowestNext(t, bit);
      GeneratorWord(bit);
      WordAdditive(Lowest(t, bit), Elem(1 << bit));
      AddAssociates(checksum, Word(Lowest(t, bit)), GENERATOR[bit as int]);
    } else {
      LowestSame(t, bit);
    }
  }

  /** The outer loop's body before its inner loop. */
  function Shifted(checksum: bv32, value: bv10): bv32 {
    ((checksum & 0xFFFFF) << 10) ^ (value as bv32)
  }

  lemma PackTop(a: Elem, b: Elem, c: Elem)
    ensures Pack(a, b, c) >> 20 == a.bits as bv32
  {
  }

  lemma PackShifted(a: Elem, b: Elem, c: Elem, value: bv10)
    ensures Shifted(Pack(a, b, c), value) == Pack(b, c, Elem(value))
  {
  }

  lemma RoundsCompleteStep(r: Register, value: bv10)
    ensures Add(Shifted(Packed(r), value), Word(r.c2)) == Packed(Step(r, Elem(value)))
  {
    hide Add, Plus, Pack, Shifted, Times14, Times56, Times64;
    PackShifted(r.c2, r.c1, r.c0, value);
    PackAdditive(r.c1, r.c0, Elem(value), Times14(r.c2), Times56(r.c2), Times64(r.c2));
  }

  lemma TopAndShift(r: Register, value: bv10)
    ensures Packed(r) >> 20 == r.c2.bits as bv32
    ensures Shifted(Packed(r), value) == ((Packed(r) & 0xFFFFF) << 10) ^ (value as bv32)
  {
    PackTop(r.c2, r.c1, r.c0);
  }

  lemma NoRounds(checksum: bv32, t: bv10)
    ensures Add(checksum, Word(Lowest(t, 0))) == checksum
  {
    LowestAll(t);
    assert Word(ZERO) == 0;
  }

  function Bytes(customization: seq<bv8>): seq<bv10> {
    if customization == [] then [] else [customization[0] as bv10] + Bytes(customization[1..])
  }

  lemma StartPacked()
    ensures Packed(START) == 1
  {
  }

  lemma RoundCode(checksum: bv32, top: bv32, bit: bv4)
    requires bit < 10
    ensures Round(checksum, top, bit)
         == if (top >> bit) & 1 == 1 then checksum ^ GENERATOR[bit as int] else checksum
  {
  }

  /** The source's two loops, over the customization bytes chained with the
      word indices. */
  method Polymod(customization: seq<bv8>, indices: seq<bv10>) returns (checksum: bv32)
    ensures checksum == Packed(Remainder(START, Bytes(customization) + indices))
  {
    hide Packed, Step, Shifted, Add, Word, Lowest, Round;
    var values := Bytes(customization) + indices;
    StartPacked();
    checksum := 1;
    for k := 0 to |values|
      invariant checksum == Packed(Remainder(START, values[..k]))
    {
      ghost var r := Remainder(START, values[..k]);
      ghost var start := Shifted(checksum, values[k]);
      var top := checksum >> 20;
      checksum := ((checksum & 0xFFFFF) << 10) ^ (values[k] as bv32);
      TopAndShift(r, values[k]);
      NoRounds(checksum, r.c2.bits);
      var bit: bv4 := 0;
      while bit < 10
        invariant bit <= 10
        invariant checksum == Add(start, Word(Lowest(r.c2.bits, bit)))
      {
        RoundCode(checksum, top, bit);
        RoundAddsWord(start, r.c2.bits, bit);
        if (top >> bit) & 1 == 1 {
          checksum := checksum ^ GENERATOR[bit as int];
        }
        bit := bit + 1;
      }
      LowestAll(r.c2.bits);
      RoundsCompleteStep(r, values[k]);
      assert values[..k + 1][..k] == values[..k];
    }
    assert values[..|values|] == values;
  }
}
