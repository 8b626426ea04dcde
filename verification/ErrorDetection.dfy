/** What the RS1024 checksum detects. The generator's roots are alpha, alpha^2
    and alpha^3, so evaluating a remainder there gives three power sums of an
    error, and three power sums determine up to three error values. */
module ErrorDetection {
  import opened Galois
  import opened Rs1024

  const NOTHING := Register(ZERO, ZERO, ZERO)

  // -------------------------------------------------------------------------
  // Linearity

  function RegisterPlus(r: Register, s: Register): Register {
    Register(Plus(r.c2, s.c2), Plus(r.c1, s.c1), Plus(r.c0, s.c0))
  }

  /** Word by word, the error that turns `a` into `b`. */
  function Difference(a: seq<bv10>, b: seq<bv10>): (d: seq<bv10>)
    requires |a| == |b|
    ensures |d| == |a|
  {
    if a == [] then []
    else Difference(a[..|a| - 1], b[..|b| - 1]) + [a[|a| - 1] ^ b[|b| - 1]]
  }

  lemma StepLinear(r: Register, s: Register, v: Elem, w: Elem)
    ensures Step(RegisterPlus(r, s), Plus(v, w)) == RegisterPlus(Step(r, v), Step(s, w))
  {
    hide Plus, Times14, Times56, Times64;
    Times14Additive(r.c2, s.c2);
    Times56Additive(r.c2, s.c2);
    Times64Additive(r.c2, s.c2);
    PlusExchange(r.c1, s.c1, Times14(r.c2), Times14(s.c2));
    PlusExchange(r.c0, s.c0, Times56(r.c2), Times56(s.c2));
    PlusExchange(v, w, Times64(r.c2), Times64(s.c2));
  }

  lemma XorIsPlus(v: bv10, w: bv10)
    ensures Elem(v ^ w) == Plus(Elem(v), Elem(w))
  {
  }

  /** The checksum register is linear in the register and the words. */
  lemma {:induction false} RemainderLinear(r: Register, s: Register, a: seq<bv10>, b: seq<bv10>)
    requires |a| == |b|
    ensures Remainder(RegisterPlus(r, s), Difference(a, b))
         == RegisterPlus(Remainder(r, a), Remainder(s, b))
  {
    hide Step, RegisterPlus;
    if a != [] {
      var n := |a| - 1;
      assert Difference(a, b)[..n] == Difference(a[..n], b[..n]);
      RemainderLinear(r, s, a[..n], b[..n]);
      XorIsPlus(a[n], b[n]);
      StepLinear(Remainder(r, a[..n]), Remainder(s, b[..n]), Elem(a[n]), Elem(b[n]));
    }
  }

  lemma {:induction false} RemainderConcat(r: Register, a: seq<bv10>, b: seq<bv10>)
    ensures Remainder(r, a + b) == Remainder(Remainder(r, a), b)
  {
    hide Step;
    if b == [] {
      assert a + b == a;
    } else {
      assert (a + b)[..|a + b| - 1] == a + b[..|b| - 1];
      RemainderConcat(r, a, b[..|b| - 1]);
    }
  }

  lemma RegisterPlusIsNothing(r: Register, s: Register)
    ensures RegisterPlus(r, s) == NOTHING <==> r == s
  {
    hide Plus;
    PlusIsZero(r.c2, s.c2);
    PlusIsZero(r.c1, s.c1);
    PlusIsZero(r.c0, s.c0);
  }

  // -------------------------------------------------------------------------
  // Syndromes: evaluation at alpha^j

  function Syndrome(r: Register, j: nat): Elem {
    Plus(Plus(TimesPower(r.c2, 2 * j), TimesPower(r.c1, j)), r.c0)
  }

  lemma TimesAsPowers(a: Elem)
    ensures Times14(a) == Plus(Plus(TimesPower(a, 1), TimesPower(a, 2)), TimesPower(a, 3))
    ensures Times56(a) == Plus(Plus(TimesPower(a, 3), TimesPower(a, 4)), TimesPower(a, 5))
    ensures Times64(a) == TimesPower(a, 6)
  {
    hide Plus, TimesAlpha;
    var p1, p2 := TimesAlpha(a), TimesAlpha(TimesAlpha(a));
    var p3 := TimesAlpha(p2);
    var p4 := TimesAlpha(p3);
    assert TimesPower(a, 0) == a;
    assert TimesPower(a, 1) == p1;
    assert TimesPower(a, 2) == p2;
    assert TimesPower(a, 3) == p3;
    assert TimesPower(a, 4) == p4;
    TimesAlphaAdditive(Plus(p1, p2), p3);
    TimesAlphaAdditive(p1, p2);
    TimesAlphaAdditive(Plus(p2, p3), p4);
    TimesAlphaAdditive(p2, p3);
  }

  lemma TimesPowerOfSum(a: Elem, i: nat, k: nat, m: nat, n: nat)
    ensures TimesPower(Plus(Plus(TimesPower(a, i), TimesPower(a, k)), TimesPower(a, m)), n)
         == Plus(Plus(TimesPower(a, i + n), TimesPower(a, k + n)), TimesPower(a, m + n))
  {
    hide Plus, TimesPower;
    TimesPowerAdditive(Plus(TimesPower(a, i), TimesPower(a, k)), TimesPower(a, m), n);
    TimesPowerAdditive(TimesPower(a, i), TimesPower(a, k), n);
    TimesPowerSum(a, i, n);
    TimesPowerSum(a, k, n);
    TimesPowerSum(a, m, n);
  }

  lemma CancelFirst(a: Elem, b: Elem, c: Elem, d: Elem)
    ensures Plus(Plus(Plus(Plus(a, b), c), Plus(Plus(b, c), d)), d) == a
  {
  }

  lemma CancelMiddle(a: Elem, b: Elem, c: Elem)
    ensures Plus(Plus(Plus(Plus(a, b), c), Plus(Plus(a, b), c)), b) == b
  {
  }

  lemma CancelLast(a: Elem, b: Elem, c: Elem, d: Elem)
    ensures Plus(Plus(Plus(Plus(b, c), d), Plus(Plus(a, b), c)), a) == d
  {
  }

  /** Alpha^j is a root of the generator: `14 alpha^2j + 56 alpha^j + 64 ==
      alpha^3j`. */
  lemma GeneratorRoot(a: Elem, j: nat)
    requires 1 <= j <= 3
    ensures Plus(Plus(TimesPower(Times14(a), 2 * j), TimesPower(Times56(a), j)), Times64(a))
         == TimesPower(a, 3 * j)
  {
    hide Plus, TimesPower, Times14, Times56, Times64;
    TimesAsPowers(a);
    TimesPowerOfSum(a, 1, 2, 3, 2 * j);
    TimesPowerOfSum(a, 3, 4, 5, j);
    if j == 1 {
      CancelFirst(TimesPower(a, 3), TimesPower(a, 4), TimesPower(a, 5), TimesPower(a, 6));
    } else if j == 2 {
      CancelMiddle(TimesPower(a, 5), TimesPower(a, 6), TimesPower(a, 7));
    } else {
      CancelLast(TimesPower(a, 6), TimesPower(a, 7), TimesPower(a, 8), TimesPower(a, 9));
    }
  }

  lemma Regroup(a: Elem, b: Elem, c: Elem, d: Elem, e: Elem, f: Elem)
    ensures Plus(Plus(Plus(a, b), Plus(c, d)), Plus(e, f)) == Plus(Plus(Plus(b, d), f), Plus(Plus(a, c), e))
  {
    hide Plus;
    PlusExchange(a, b, c, d);
    PlusExchange(Plus(a, c), Plus(b, d), e, f);
    PlusCommutes(Plus(Plus(a, c), e), Plus(Plus(b, d), f));
  }

  /** One step multiplies a syndrome by alpha^j and adds the value. */
  lemma StepSyndrome(r: Register, value: Elem, j: nat)
    requires 1 <= j <= 3
    ensures Syndrome(Step(r, value), j) == Plus(TimesPower(Syndrome(r, j), j), value)
  {
    hide Plus, TimesPower, Times14, Times56, Times64;
    var g2, g1, g0 := Times14(r.c2), Times56(r.c2), Times64(r.c2);
    TimesPowerAdditive(r.c1, g2, 2 * j);
    TimesPowerAdditive(r.c0, g1, j);
    var t1, t0 := TimesPower(r.c1, 2 * j), TimesPower(r.c0, j);
    Regroup(t1, TimesPower(g2, 2 * j), t0, TimesPower(g1, j), value, g0);
    GeneratorRoot(r.c2, j);
    var t2 := TimesPower(r.c2, 3 * j);
    assert Syndrome(Step(r, value), j) == Plus(t2, Plus(Plus(t1, t0), value));
    TimesPowerAdditive(Plus(TimesPower(r.c2, 2 * j), TimesPower(r.c1, j)), r.c0, j);
    TimesPowerAdditive(TimesPower(r.c2, 2 * j), TimesPower(r.c1, j), j);
    TimesPowerSum(r.c2, 2 * j, j);
    TimesPowerSum(r.c1, j, j);
    PlusAssociates(t2, t1, t0);
    PlusAssociates(t2, Plus(t1, t0), value);
  }

  /** The value at alpha^j of the polynomial with coefficients `values`. */
  function PowerSum(values: seq<bv10>, j: nat): Elem {
    if values == [] then ZERO
    else Plus(TimesPower(PowerSum(values[..|values| - 1], j), j), Elem(values[|values| - 1]))
  }

  lemma {:induction false} RemainderSyndrome(values: seq<bv10>, j: nat)
    requires 1 <= j <= 3
    ensures Syndrome(Remainder(NOTHING, values), j) == PowerSum(values, j)
  {
    hide Plus, TimesPower, Step, Syndrome;
    if values == [] {
      NothingSyndrome(j);
    } else {
      var n := |values| - 1;
      RemainderSyndrome(values[..n], j);
      StepSyndrome(Remainder(NOTHING, values[..n]), Elem(values[n]), j);
    }
  }

  lemma NothingSyndrome(j: nat)
    ensures Syndrome(NOTHING, j) == ZERO
  {
    hide Plus, TimesPower;
    TimesPowerZero(2 * j);
    TimesPowerZero(j);
    PlusZero(ZERO);
  }

  // -------------------------------------------------------------------------
  // Up to three errors

  /** What position `p` contributes to a power sum. */
  function Term(d: seq<bv10>, p: nat, j: nat): Elem {
    if p < |d| then TimesPower(Elem(d[p]), j * (|d| - 1 - p)) else ZERO
  }

  ghost predicate ZeroOutside(d: seq<bv10>, p: nat, q: nat, s: nat) {
    forall i :: 0 <= i < |d| && i != p && i != q && i != s ==> d[i] == 0
  }

  lemma TermNext(d: seq<bv10>, v: bv10, p: nat, j: nat)
    ensures p != |d| ==> Term(d + [v], p, j) == TimesPower(Term(d, p, j), j)
    ensures p == |d| ==> Term(d + [v], p, j) == Elem(v) && TimesPower(Term(d, p, j), j) == ZERO
  {
    hide TimesPower;
    TimesPowerZero(j);
    if p < |d| {
      assert (d + [v])[p] == d[p];
      assert j * (|d| - 1 - p) + j == j * (|d| - p);
      TimesPowerSum(Elem(d[p]), j * (|d| - 1 - p), j);
    } else if p == |d| {
      assert j * 0 == 0;
      NoFactor(Elem(v));
    }
  }

  lemma NoFactor(a: Elem)
    ensures TimesPower(a, 0) == a
  {
  }

  lemma Fourth(a: Elem, b: Elem, c: Elem)
    ensures Plus(Plus(Plus(a, b), c), ZERO) == Plus(Plus(a, b), c)
    ensures Plus(Plus(Plus(ZERO, b), c), a) == Plus(Plus(a, b), c)
    ensures Plus(Plus(Plus(a, ZERO), c), b) == Plus(Plus(a, b), c)
    ensures Plus(Plus(Plus(a, b), ZERO), c) == Plus(Plus(a, b), c)
  {
    hide Plus;
    PlusZero(Plus(Plus(a, b), c));
    PlusZero(a);
    PlusZero(b);
    PlusZero(Plus(a, b));
    PlusCommutes(Plus(b, c), a);
    PlusAssociates(a, b, c);
    PlusAssociates(a, c, b);
    PlusCommutes(b, c);
  }

  lemma {:induction false} PowerSumOfThree(d: seq<bv10>, p: nat, q: nat, s: nat, j: nat)
    requires p != q && q != s && p != s
    requires ZeroOutside(d, p, q, s)
    ensures PowerSum(d, j) == Plus(Plus(Term(d, p, j), Term(d, q, j)), Term(d, s, j))
  {
    hide Plus, TimesPower, Term;
    if d == [] {
      NoTerms(p, q, s, j);
    } else {
      var n := |d| - 1;
      var e, v := d[..n], d[n];
      assert d == e + [v];
      PowerSumOfThree(e, p, q, s, j);
      TermNext(e, v, p, j);
      TermNext(e, v, q, j);
      TermNext(e, v, s, j);
      var a, b, c := Term(d, p, j), Term(d, q, j), Term(d, s, j);
      TimesPowerAdditive(Plus(Term(e, p, j), Term(e, q, j)), Term(e, s, j), j);
      TimesPowerAdditive(Term(e, p, j), Term(e, q, j), j);
      Fourth(a, b, c);
    }
  }

  lemma NoTerms(p: nat, q: nat, s: nat, j: nat)
    ensures Plus(Plus(Term([], p, j), Term([], q, j)), Term([], s, j)) == ZERO
  {
    hide Plus;
    PlusZero(ZERO);
  }

  /** `a (alpha^m + alpha^n)`. */
  function TimesTwo(a: Elem, m: nat, n: nat): Elem {
    Plus(TimesPower(a, m), TimesPower(a, n))
  }

  lemma TimesTwoSquared(a: Elem, m: nat, n: nat)
    ensures TimesTwo(TimesTwo(a, m, n), m, n) == TimesTwo(a, 2 * m, 2 * n)
  {
    hide Plus, TimesPower;
    TimesPowerAdditive(TimesPower(a, m), TimesPower(a, n), m);
    TimesPowerAdditive(TimesPower(a, m), TimesPower(a, n), n);
    TimesPowerSum(a, m, m);
    TimesPowerSum(a, n, m);
    TimesPowerSum(a, m, n);
    TimesPowerSum(a, n, n);
    var x, y, z := TimesPower(a, 2 * m), TimesPower(a, m + n), TimesPower(a, 2 * n);
    PlusExchange(x, y, y, z);
    PlusCommutes(y, x);
    PlusExchange(x, y, z, y);
    PlusCommutes(y, z);
    PlusZero(y);
    PlusZero(Plus(x, z));
  }

  lemma Substitute(a: Elem, b: Elem, c: Elem, x: nat, y: nat, z: nat)
    requires Plus(Plus(a, b), c) == ZERO
    requires Plus(Plus(TimesPower(a, x), TimesPower(b, y)), TimesPower(c, z)) == ZERO
    ensures TimesTwo(a, x, z) == TimesTwo(b, y, z)
  {
    hide Plus, TimesPower;
    PlusIsZero(Plus(a, b), c);
    TimesPowerAdditive(a, b, z);
    PlusExchange(TimesPower(a, x), TimesPower(b, y), TimesPower(a, z), TimesPower(b, z));
    PlusIsZero(TimesTwo(a, x, z), TimesTwo(b, y, z));
  }

  lemma PlusCancels(a: Elem, b: Elem, c: Elem)
    requires Plus(a, c) == Plus(b, c)
    ensures a == b
  {
    hide Plus;
    PlusAssociates(a, c, c);
    PlusAssociates(b, c, c);
    PlusZero(a);
    PlusZero(b);
    PlusZero(c);
  }

  predicate Close(m: nat, n: nat) {
    m != n && -32 <= m - n <= 32
  }

  /** The elimination: three errors at positions x, y and z whose first three
      power sums vanish are no errors. `a`, `b` and `c` are the errors times
      alpha^x, alpha^y and alpha^z. */
  lemma ThreePowerSums(a: Elem, b: Elem, c: Elem, x: nat, y: nat, z: nat)
    requires Close(x, y) && Close(y, z) && Close(x, z)
    requires Plus(Plus(a, b), c) == ZERO
    requires Plus(Plus(TimesPower(a, x), TimesPower(b, y)), TimesPower(c, z)) == ZERO
    requires Plus(Plus(TimesPower(a, 2 * x), TimesPower(b, 2 * y)), TimesPower(c, 2 * z)) == ZERO
    ensures a == ZERO && b == ZERO && c == ZERO
  {
    hide Plus, TimesPower;
    Substitute(a, b, c, x, y, z);
    Substitute(a, b, c, 2 * x, 2 * y, 2 * z);
    TimesTwoSquared(a, x, z);
    TimesTwoSquared(b, y, z);
    var e := TimesTwo(a, x, z);
    PlusCancels(TimesPower(e, x), TimesPower(e, y), TimesPower(e, z));
    PowersDiffer(e, x, y);
    PlusIsZero(TimesPower(a, x), TimesPower(a, z));
    PowersDiffer(a, x, z);
    PlusIsZero(TimesPower(b, y), TimesPower(b, z));
    PowersDiffer(b, y, z);
    PlusZero(ZERO);
    PlusZero(c);
  }

  /** A word sequence of at most 33 words, nonzero in at most three places,
      leaves a nonzero remainder unless it is zero throughout. */
  lemma ThreeErrorsLeaveRemainder(d: seq<bv10>, p: nat, q: nat, s: nat)
    requires p < |d| <= 33 && q < |d| && s < |d| && p != q && q != s && p != s
    requires ZeroOutside(d, p, q, s)
    requires Remainder(NOTHING, d) == NOTHING
    ensures d[p] == 0 && d[q] == 0 && d[s] == 0
  {
    hide Plus, TimesPower, Remainder, PowerSum;
    var n := |d| - 1;
    var x, y, z := n - p, n - q, n - s;
    var a, b, c := TimesPower(Elem(d[p]), x), TimesPower(Elem(d[q]), y), TimesPower(Elem(d[s]), z);
    forall j: nat | 1 <= j <= 3
      ensures Plus(Plus(Term(d, p, j), Term(d, q, j)), Term(d, s, j)) == ZERO
    {
      RemainderSyndrome(d, j);
      NothingSyndrome(j);
      PowerSumOfThree(d, p, q, s, j);
    }
    TermPowers(d, p);
    TermPowers(d, q);
    TermPowers(d, s);
    assert Plus(Plus(Term(d, p, 1), Term(d, q, 1)), Term(d, s, 1)) == ZERO;
    assert Plus(Plus(Term(d, p, 2), Term(d, q, 2)), Term(d, s, 2)) == ZERO;
    assert Plus(Plus(Term(d, p, 3), Term(d, q, 3)), Term(d, s, 3)) == ZERO;
    ThreePowerSums(a, b, c, x, y, z);
    OnlyZeroVanishes(Elem(d[p]), x);
    OnlyZeroVanishes(Elem(d[q]), y);
    OnlyZeroVanishes(Elem(d[s]), z);
  }

  lemma TermPowers(d: seq<bv10>, p: nat)
    requires p < |d|
    ensures
      var x := |d| - 1 - p;
      var a := TimesPower(Elem(d[p]), x);
      Term(d, p, 1) == a && Term(d, p, 2) == TimesPower(a, x) && Term(d, p, 3) == TimesPower(a, 2 * x)
  {
    hide TimesPower;
    var x := |d| - 1 - p;
    TimesPowerSum(Elem(d[p]), x, x);
    TimesPowerSum(Elem(d[p]), x, 2 * x);
  }

  lemma OnlyZeroVanishes(a: Elem, n: nat)
    requires TimesPower(a, n) == ZERO
    ensures a == ZERO
  {
    hide TimesPower;
    TimesPowerZero(n);
    TimesPowerInjective(a, ZERO, n);
  }

  // -------------------------------------------------------------------------
  // The theorems about checked words

  /** `rs1024_polymod(customization, words) == 1`. */
  predicate Verifies(customization: seq<bv8>, words: seq<bv10>) {
    Packed(Remainder(START, Bytes(customization) + words)) == 1
  }

  lemma VerifiesIsStart(customization: seq<bv8>, words: seq<bv10>)
    ensures Verifies(customization, words)
       <==> Remainder(Remainder(START, Bytes(customization)), words) == START
  {
    hide Remainder, Pack, Bytes;
    RemainderConcat(START, Bytes(customization), words);
    StartPacked();
    var r := Remainder(Remainder(START, Bytes(customization)), words);
    if Packed(r) == 1 {
      PackInjective(r.c2, r.c1, r.c0, START.c2, START.c1, START.c0);
    }
  }

  /** Two sequences verify under one customization only if the error between
      them leaves no remainder; conversely such an error goes undetected. */
  lemma UndetectedIffNoRemainder(customization: seq<bv8>, a: seq<bv10>, b: seq<bv10>)
    requires |a| == |b| && Verifies(customization, a)
    ensures Verifies(customization, b) <==> Remainder(NOTHING, Difference(a, b)) == NOTHING
  {
    hide Remainder, Verifies, RegisterPlus;
    var r := Remainder(START, Bytes(customization));
    VerifiesIsStart(customization, a);
    VerifiesIsStart(customization, b);
    RegisterPlusIsNothing(r, r);
    RemainderLinear(r, r, a, b);
    RegisterPlusIsNothing(Remainder(r, a), Remainder(r, b));
  }

  lemma {:induction false} DifferenceAt(a: seq<bv10>, b: seq<bv10>, i: nat)
    requires |a| == |b| && i < |a|
    ensures Difference(a, b)[i] == 0 <==> a[i] == b[i]
  {
    var n := |a| - 1;
    if i == n {
      XorIsZero(a[i], b[i]);
    } else {
      DifferenceAt(a[..n], b[..n], i);
    }
  }

  lemma XorIsZero(v: bv10, w: bv10)
    ensures v ^ w == 0 <==> v == w
  {
  }

  function Other(p: nat, q: nat): (s: nat)
    ensures s < 3 && s != p && s != q
  {
    if p != 0 && q != 0 then 0 else if p != 1 && q != 1 then 1 else 2
  }

  /** The error-detection theorem: of two distinct 33-word sequences that
      agree outside three positions, at most one verifies. */
  lemma DetectsThreeSubstitutions(customization: seq<bv8>, a: seq<bv10>, b: seq<bv10>, p: nat, q: nat, s: nat)
    requires |a| == |b| == 33 && p < 33 && q < 33 && s < 33
    requires forall i :: 0 <= i < 33 && i != p && i != q && i != s ==> a[i] == b[i]
    requires Verifies(customization, a) && Verifies(customization, b)
    ensures a == b
  {
    hide Verifies, Remainder, Difference;
    var d := Difference(a, b);
    UndetectedIffNoRemainder(customization, a, b);
    var q' := if q == p then Other(p, s) else q;
    var s' := if s == p || s == q' then Other(p, q') else s;
    forall i: nat | i < 33
      ensures d[i] == 0 <==> a[i] == b[i]
    {
      DifferenceAt(a, b, i);
    }
    ThreeErrorsLeaveRemainder(d, p, q', s');
  }

  lemma RegisterPlusNothing(r: Register)
    ensures RegisterPlus(r, NOTHING) == r && RegisterPlus(NOTHING, r) == r
  {
    hide Plus;
    PlusZero(r.c2);
    PlusZero(r.c1);
    PlusZero(r.c0);
  }

  lemma StepFromLow(c1: Elem, c0: Elem, value: bv10)
    ensures Step(Register(ZERO, c1, c0), Elem(value)) == Register(c1, c0, Elem(value))
  {
    hide Plus;
    PlusZero(c1);
    PlusZero(c0);
    PlusZero(Elem(value));
    assert Times14(ZERO) == ZERO && Times56(ZERO) == ZERO && Times64(ZERO) == ZERO by {
      NoMultiples();
    }
  }

  lemma NoMultiples()
    ensures Times14(ZERO) == ZERO && Times56(ZERO) == ZERO && Times64(ZERO) == ZERO
  {
  }

  lemma ThreeWords(r: Register, a: bv10, b: bv10, c: bv10)
    ensures Remainder(r, [a, b, c]) == Step(Step(Step(r, Elem(a)), Elem(b)), Elem(c))
  {
    hide Step;
    assert [a, b, c][..2] == [a, b] && [a, b][..1] == [a] && [a][..0] == [];
    assert Remainder(r, [a]) == Step(r, Elem(a));
    assert Remainder(r, [a, b]) == Step(Remainder(r, [a]), Elem(b));
  }

  /** `w` is stepped in on top of `v`: the register it leaves from nothing is
      added to the one `v` leaves. */
  lemma StepAdded(r: Register, s: Register, v: bv10, w: Elem, vw: Elem)
    requires vw == Plus(Elem(v), w)
    ensures Step(RegisterPlus(r, s), vw) == RegisterPlus(Step(r, Elem(v)), Step(s, w))
  {
    hide Step, RegisterPlus, Plus;
    StepLinear(r, s, Elem(v), w);
  }

  lemma ThreeFromNothing(r: Register, a: bv10, b: bv10, c: bv10)
    ensures Remainder(r, [a, b, c])
         == RegisterPlus(Remainder(r, [0, 0, 0]), Register(Elem(a), Elem(b), Elem(c)))
  {
    hide Plus, Step, Remainder, RegisterPlus;
    ThreeWords(r, a, b, c);
    ThreeWords(r, 0, 0, 0);
    StepFromLow(ZERO, ZERO, a);
    StepFromLow(ZERO, Elem(a), b);
    StepFromLow(Elem(a), Elem(b), c);
    RegisterPlusNothing(r);
    PlusZero(Elem(a));
    PlusZero(Elem(b));
    PlusZero(Elem(c));
    var r1 := Step(r, Elem(0));
    var r2 := Step(r1, Elem(0));
    StepAdded(r, NOTHING, 0, Elem(a), Elem(a));
    StepAdded(r1, Register(ZERO, ZERO, Elem(a)), 0, Elem(b), Elem(b));
    StepAdded(r2, Register(ZERO, Elem(a), Elem(b)), 0, Elem(c), Elem(c));
  }

  function Flip(a: bv10): bv10 {
    a ^ 1
  }

  lemma PlusSolves(a: Elem, v: bv10)
    ensures Plus(a, Elem(v)) == ZERO <==> v == a.bits
    ensures Plus(a, Elem(v)) == Elem(1) <==> v == Flip(a.bits)
  {
  }

  /** The last three words for which `prefix` verifies. */
  function Ending(customization: seq<bv8>, prefix: seq<bv10>): seq<bv10> {
    var r := Remainder(START, Bytes(customization) + prefix + [0, 0, 0]);
    [r.c2.bits, r.c1.bits, Flip(r.c0.bits)]
  }

  /** Every prefix has exactly one ending of three words that verifies. */
  lemma ExactlyOneEnding(customization: seq<bv8>, prefix: seq<bv10>, a: bv10, b: bv10, c: bv10)
    ensures Verifies(customization, prefix + [a, b, c]) <==> [a, b, c] == Ending(customization, prefix)
  {
    hide Plus, Step, Remainder, Verifies, Flip;
    var q := Remainder(START, Bytes(customization));
    var r := Remainder(q, prefix);
    VerifiesIsStart(customization, prefix + [a, b, c]);
    RemainderConcat(q, prefix, [a, b, c]);
    RemainderConcat(START, Bytes(customization), prefix);
    RemainderConcat(START, Bytes(customization) + prefix, [0, 0, 0]);
    ThreeFromNothing(r, a, b, c);
    var z := Remainder(r, [0, 0, 0]);
    PlusSolves(z.c2, a);
    PlusSolves(z.c1, b);
    PlusSolves(z.c0, c);
  }

  lemma GeneratorWords()
    ensures Times14(Elem(1)) == Elem(14) && Times56(Elem(1)) == Elem(56) && Times64(Elem(1)) == Elem(64)
  {
    var one := Elem(1);
    assert TimesAlpha(one) == Elem(2);
    assert TimesAlpha(Elem(2)) == Elem(4);
    assert TimesAlpha(Elem(4)) == Elem(8);
    assert TimesAlpha(Elem(8)) == Elem(16);
    assert TimesAlpha(Elem(16)) == Elem(32);
    assert TimesAlpha(Elem(32)) == Elem(64);
    assert Plus(Plus(Elem(2), Elem(4)), Elem(8)) == Elem(14);
    assert TimesAlpha(Elem(14)) == Elem(28);
    assert TimesAlpha(Elem(28)) == Elem(56);
  }

  lemma GeneratorStep()
    ensures Step(Register(Elem(1), Elem(14), Elem(56)), Elem(64)) == NOTHING
  {
    hide Plus, Times14, Times56, Times64;
    GeneratorWords();
    PlusZero(Elem(14));
    PlusZero(Elem(56));
    PlusZero(Elem(64));
  }

  /** The generator polynomial, added to four consecutive words. */
  function PlusGenerator(w: seq<bv10>): (r: seq<bv10>)
    requires |w| == 4
    ensures |r| == 4
  {
    [w[0] ^ 1, w[1] ^ 14, w[2] ^ 56, w[3] ^ 64]
  }

  lemma FourWords(r: Register, w: seq<bv10>)
    requires |w| == 4
    ensures Remainder(r, w) == Step(Step(Step(Step(r, Elem(w[0])), Elem(w[1])), Elem(w[2])), Elem(w[3]))
  {
    hide Step;
    assert w[..3] == [w[0], w[1], w[2]];
    ThreeWords(r, w[0], w[1], w[2]);
  }

  lemma PlusGeneratorValues(w: seq<bv10>)
    requires |w| == 4
    ensures
      var x := PlusGenerator(w);
      && Elem(x[0]) == Plus(Elem(w[0]), Elem(1)) && Elem(x[1]) == Plus(Elem(w[1]), Elem(14))
      && Elem(x[2]) == Plus(Elem(w[2]), Elem(56)) && Elem(x[3]) == Plus(Elem(w[3]), Elem(64))
  {
  }

  lemma GeneratorUnseen(r: Register, w: seq<bv10>)
    requires |w| == 4
    ensures Remainder(r, PlusGenerator(w)) == Remainder(r, w)
  {
    hide Plus, Step, Remainder, RegisterPlus, PlusGenerator;
    var x := PlusGenerator(w);
    FourWords(r, w);
    FourWords(r, x);
    PlusGeneratorValues(w);
    RegisterPlusNothing(r);
    StepFromLow(ZERO, ZERO, 1);
    StepFromLow(ZERO, Elem(1), 14);
    StepFromLow(Elem(1), Elem(14), 56);
    GeneratorStep();
    var r1 := Step(r, Elem(w[0]));
    var r2 := Step(r1, Elem(w[1]));
    var r3 := Step(r2, Elem(w[2]));
    StepAdded(r, NOTHING, w[0], Elem(1), Elem(x[0]));
    StepAdded(r1, Register(ZERO, ZERO, Elem(1)), w[1], Elem(14), Elem(x[1]));
    StepAdded(r2, Register(ZERO, Elem(1), Elem(14)), w[2], Elem(56), Elem(x[2]));
    StepAdded(r3, Register(Elem(1), Elem(14), Elem(56)), w[3], Elem(64), Elem(x[3]));
    RegisterPlusNothing(Step(r3, Elem(w[3])));
  }

  lemma GeneratorChangesAll(w: seq<bv10>)
    requires |w| == 4
    ensures forall k :: 0 <= k < 4 ==> PlusGenerator(w)[k] != w[k]
  {
    XorMoves(w[0], 1);
    XorMoves(w[1], 14);
    XorMoves(w[2], 56);
    XorMoves(w[3], 64);
  }

  lemma XorMoves(a: bv10, e: bv10)
    requires e != 0
    ensures a ^ e != a
  {
  }

  function AddGenerator(words: seq<bv10>, i: nat): (r: seq<bv10>)
    requires i + 4 <= |words|
    ensures |r| == |words|
  {
    words[..i] + PlusGenerator(words[i..i + 4]) + words[i + 4..]
  }

  /** Three is the most: adding the generator at any place changes exactly
      four words and always goes undetected. */
  lemma FourSubstitutionsEscape(customization: seq<bv8>, words: seq<bv10>, i: nat)
    requires i + 4 <= |words|
    ensures Verifies(customization, AddGenerator(words, i)) <==> Verifies(customization, words)
    ensures forall k :: 0 <= k < |words| ==>
              (AddGenerator(words, i)[k] != words[k] <==> i <= k < i + 4)
  {
    hide Remainder, Verifies, PlusGenerator;
    var w := words[i..i + 4];
    GeneratorChangesAll(w);
    var changed := AddGenerator(words, i);
    assert words == words[..i] + w + words[i + 4..];
    var q := Remainder(START, Bytes(customization));
    VerifiesIsStart(customization, words);
    VerifiesIsStart(customization, changed);
    RemainderConcat(q, words[..i] + w, words[i + 4..]);
    RemainderConcat(q, words[..i], w);
    RemainderConcat(q, words[..i] + PlusGenerator(w), words[i + 4..]);
    RemainderConcat(q, words[..i], PlusGenerator(w));
    GeneratorUnseen(Remainder(q, words[..i]), w);
  }
}
