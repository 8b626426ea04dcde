/** The field GF(1024) = GF(2)[x] / (x^10 + x^3 + 1) that RS1024 works in, as
    far as the checksum needs it: addition, and multiplication by powers of
    alpha, the class of x. */
module Galois {

  /** Bit i of `bits` is the coefficient of x^i. */
  datatype Elem = Elem(bits: bv10)

  const ZERO := Elem(0)

  function Plus(a: Elem, b: Elem): Elem {
    Elem(a.bits ^ b.bits)
  }

  /** `a * alpha`: shift, and replace an overflowing x^10 by x^3 + 1. */
  function TimesAlpha(a: Elem): Elem {
    Elem(ShiftReduce(a.bits))
  }

  function ShiftReduce(a: bv10): bv10 {
    (a << 1) ^ (a >> 9) ^ ((a >> 9) << 3)
  }

  /** `a * alpha^n`. */
  function TimesPower(a: Elem, n: nat): Elem {
    if n == 0 then a else TimesAlpha(TimesPower(a, n - 1))
  }

  // -------------------------------------------------------------------------
  // Addition

  lemma PlusCommutes(a: Elem, b: Elem)
    ensures Plus(a, b) == Plus(b, a)
  {
  }

  lemma PlusAssociates(a: Elem, b: Elem, c: Elem)
    ensures Plus(Plus(a, b), c) == Plus(a, Plus(b, c))
  {
  }

  lemma PlusExchange(a: Elem, b: Elem, c: Elem, d: Elem)
    ensures Plus(Plus(a, b), Plus(c, d)) == Plus(Plus(a, c), Plus(b, d))
  {
  }

  lemma PlusZero(a: Elem)
    ensures Plus(a, ZERO) == a && Plus(ZERO, a) == a && Plus(a, a) == ZERO
  {
  }

  lemma PlusIsZero(a: Elem, b: Elem)
    ensures Plus(a, b) == ZERO <==> a == b
  {
  }

  // -------------------------------------------------------------------------
  // Multiplication by powers of alpha

  lemma TimesAlphaAdditive(a: Elem, b: Elem)
    ensures TimesAlpha(Plus(a, b)) == Plus(TimesAlpha(a), TimesAlpha(b))
  {
  }

  lemma TimesAlphaInjective(a: Elem, b: Elem)
    requires TimesAlpha(a) == TimesAlpha(b)
    ensures a == b
  {
  }

  lemma {:induction false} TimesPowerAdditive(a: Elem, b: Elem, n: nat)
    ensures TimesPower(Plus(a, b), n) == Plus(TimesPower(a, n), TimesPower(b, n))
  {
    hide Plus, TimesAlpha;
    if n > 0 {
      TimesPowerAdditive(a, b, n - 1);
      TimesAlphaAdditive(TimesPower(a, n - 1), TimesPower(b, n - 1));
    }
  }

  lemma {:induction false} TimesPowerInjective(a: Elem, b: Elem, n: nat)
    requires TimesPower(a, n) == TimesPower(b, n)
    ensures a == b
  {
    hide TimesAlpha;
    if n > 0 {
      TimesAlphaInjective(TimesPower(a, n - 1), TimesPower(b, n - 1));
      TimesPowerInjective(a, b, n - 1);
    }
  }

  lemma {:induction false} TimesPowerSum(a: Elem, m: nat, n: nat)
    ensures TimesPower(TimesPower(a, m), n) == TimesPower(a, m + n)
  {
    hide TimesAlpha;
    if n > 0 {
      TimesPowerSum(a, m, n - 1);
    }
  }

  lemma {:induction false} TimesPowerZero(n: nat)
    ensures TimesPower(ZERO, n) == ZERO
  {
    if n > 0 {
      TimesPowerZero(n - 1);
    }
  }

  // -------------------------------------------------------------------------
  // The order of alpha

  function ShiftReduce4(a: bv10): bv10 {
    ShiftReduce(ShiftReduce(ShiftReduce(ShiftReduce(a))))
  }

  function ShiftReduce8(a: bv10): bv10 {
    ShiftReduce4(ShiftReduce4(a))
  }

  /** One of `b * alpha` to `b * alpha^4` is `a`. */
  predicate Reaches4(b: bv10, a: bv10) {
    || a == ShiftReduce(b)
    || a == ShiftReduce(ShiftReduce(b))
    || a == ShiftReduce(ShiftReduce(ShiftReduce(b)))
    || a == ShiftReduce4(b)
  }

  predicate Reaches8(b: bv10, a: bv10) {
    Reaches4(b, a) || Reaches4(ShiftReduce4(b), a)
  }

  lemma FourSteps(b: Elem, n: nat)
    requires n <= 4
    ensures n == 4 ==> TimesPower(b, n) == Elem(ShiftReduce4(b.bits))
    ensures 1 <= n ==> Reaches4(b.bits, TimesPower(b, n).bits)
  {
    hide ShiftReduce;
    assert TimesPower(b, 0) == b;
    assert TimesPower(b, 1) == TimesAlpha(b);
    assert TimesPower(b, 2) == TimesAlpha(TimesAlpha(b));
    assert TimesPower(b, 3) == TimesAlpha(TimesAlpha(TimesAlpha(b)));
  }

  lemma EightSteps(b: Elem, n: nat)
    requires n <= 8
    ensures n == 8 ==> TimesPower(b, n) == Elem(ShiftReduce8(b.bits))
    ensures 1 <= n ==> Reaches8(b.bits, TimesPower(b, n).bits)
  {
    hide ShiftReduce, ShiftReduce4, Reaches4, TimesAlpha;
    if n <= 4 {
      FourSteps(b, n);
    } else {
      FourSteps(b, 4);
      FourSteps(TimesPower(b, 4), n - 4);
      TimesPowerSum(b, 4, n - 4);
    }
  }

  lemma NoReturnIn8(a: bv10)
    requires a != 0
    ensures !Reaches8(a, a)
  {
  }

  lemma NoReturnIn16(a: bv10)
    requires a != 0
    ensures !Reaches8(ShiftReduce8(a), a)
  {
  }

  lemma NoReturnIn24(a: bv10)
    requires a != 0
    ensures !Reaches8(ShiftReduce8(ShiftReduce8(a)), a)
  {
  }

  lemma NoReturnIn32(a: bv10)
    requires a != 0
    ensures !Reaches8(ShiftReduce8(ShiftReduce8(ShiftReduce8(a))), a)
  {
  }

  /** No power of alpha from the first to the 32nd is 1: multiplying by it
      moves every nonzero element. */
  lemma NoShortCycle(a: Elem, d: nat)
    requires 1 <= d <= 32 && TimesPower(a, d) == a
    ensures a == ZERO
  {
    hide TimesAlpha, TimesPower, ShiftReduce8, Reaches8;
    var b, c, e := TimesPower(a, 8), TimesPower(a, 16), TimesPower(a, 24);
    EightSteps(a, 8);
    EightSteps(b, 8);
    EightSteps(c, 8);
    TimesPowerSum(a, 8, 8);
    TimesPowerSum(a, 16, 8);
    if a != ZERO {
      if d <= 8 {
        EightSteps(a, d);
        NoReturnIn8(a.bits);
      } else if d <= 16 {
        TimesPowerSum(a, 8, d - 8);
        EightSteps(b, d - 8);
        NoReturnIn16(a.bits);
      } else if d <= 24 {
        TimesPowerSum(a, 16, d - 16);
        EightSteps(c, d - 16);
        NoReturnIn24(a.bits);
      } else {
        TimesPowerSum(a, 24, d - 24);
        EightSteps(e, d - 24);
        NoReturnIn32(a.bits);
      }
    }
  }

  /** Powers of alpha with distinct exponents fewer than 33 apart multiply a
      nonzero element to distinct results. */
  lemma PowersDiffer(a: Elem, m: nat, n: nat)
    requires m != n && -32 <= m - n <= 32
    requires TimesPower(a, m) == TimesPower(a, n)
    ensures a == ZERO
    decreases m < n
  {
    hide TimesPower;
    if m > n {
      TimesPowerSum(a, m - n, n);
      TimesPowerInjective(TimesPower(a, m - n), a, n);
      NoShortCycle(a, m - n);
    } else {
      PowersDiffer(a, n, m);
    }
  }
}
