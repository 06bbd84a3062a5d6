/** A restartable Halton sequence: a generator that walks a 32-bit index and yields the
    radical inverse of the current index in one or two bases. Values are exact reals. */
module LowDiscrepancySequence {

  import opened Common

  /** The bases for which a radical inverse of `index` is defined: a positive index
      needs a base other than 0 (a division by zero) and 1 (the digit loop never ends). */
  predicate HaltonDefined(index: int, b: int)
  {
    index <= 0 || (b != 0 && b != 1)
  }

  /** Each step of the digit loop shrinks a positive index, in any admissible base
      (a negative base sends it to 0 or below at once). */
  lemma QuotientDecreases(index: int, b: int)
    requires index > 0 && b != 0 && b != 1
    ensures CsQuot(index, b) < index
  {
    if b >= 2 {
      CsDivisionIsEuclidean(index, b);
      DivisionShrinks(index, b);
    } else {
      assert CsQuot(index, b) == -(index / -b);
    }
  }

  /** On a non-negative index and a base of at least 2, C#'s truncating division and
      remainder agree with Dafny's. */
  lemma CsDivisionIsEuclidean(i: int, b: int)
    requires i >= 0 && b >= 2
    ensures CsQuot(i, b) == i / b && CsRem(i, b) == i % b
  {
  }

  lemma DivisionShrinks(a: int, b: int)
    requires a > 0 && b >= 2
    ensures 0 <= a / b < a
  {
  }

  /** `b` times the radical inverse of `i`, in Horner form: the lowest digit (C#'s
      truncating remainder) plus the same value for the remaining digits over `b`;
      0 for an index that is not positive. */
  function ScaledRadicalInverse(i: int, b: int): real
    requires HaltonDefined(i, b)
    decreases if i > 0 then i else 0
  {
    if i <= 0 then 0.0
    else
      QuotientDecreases(i, b);
      (CsRem(i, b) as real) + ScaledRadicalInverse(CsQuot(i, b), b) / (b as real)
  }

  /** The radical inverse of `index` in base `b`: digit k weighted by b^-(k+1); 0 for
      an index that is not positive (base 0 then never divides anything). */
  function Halton(index: int, b: int): real
    requires HaltonDefined(index, b)
  {
    if b == 0 then 0.0 else ScaledRadicalInverse(index, b) / (b as real)
  }

  /** The first step of ScaledRadicalInverse. */
  lemma ScaledUnfold(i: int, b: int)
    requires i > 0 && b != 0 && b != 1
    ensures ScaledRadicalInverse(i, b) == (CsRem(i, b) as real) + ScaledRadicalInverse(CsQuot(i, b), b) / (b as real)
  {
  }

  lemma ReciprocalScale(bb: real, t: real)
    requires bb != 0.0
    ensures (1.0 / bb) * t == t / bb
  {
  }

  /** One turn of the digit loop keeps `result + fraction * rest` unchanged, where
      `rest` is `b` times the radical inverse of the digits still to be read. */
  lemma StepAlgebra(result: real, f: real, d: real, t: real, tq: real, bb: real)
    requires bb != 0.0 && t == d + tq / bb
    ensures result + d * f + (f / bb) * tq == result + f * t
  {
    assert (f / bb) * tq == f * (tq / bb);
  }

  /** GetHaltonValue: accumulates the digits of `index` in base `b`, each scaled by the
      next power of 1/b. */
  method GetHaltonValue(index: int, sequenceBase: int) returns (result: real)
    requires HaltonDefined(index, sequenceBase)
    ensures result == Halton(index, sequenceBase)
    ensures index <= 0 ==> result == 0.0
  {
    var b := sequenceBase as real;
    result := 0.0;
    var fraction: real := if sequenceBase != 0 then 1.0 / b else 0.0;
    var i := index;
    ghost var rest := ScaledRadicalInverse(i, sequenceBase);
    if sequenceBase != 0 {
      ReciprocalScale(b, rest);
    }
    while i > 0
      invariant HaltonDefined(i, sequenceBase)
      invariant i > 0 ==> sequenceBase != 0
      invariant rest == ScaledRadicalInverse(i, sequenceBase)
      invariant result + fraction * rest == Halton(index, sequenceBase)
      decreases i
    {
      QuotientDecreases(i, sequenceBase);
      var d := CsRem(i, sequenceBase) as real;
      var q := CsQuot(i, sequenceBase);
      ScaledUnfold(i, sequenceBase);
      ghost var next := ScaledRadicalInverse(q, sequenceBase);
      StepAlgebra(result, fraction, d, rest, next, b);
      result := result + d * fraction;
      i := q;
      fraction := fraction / b;
      rest := next;
    }
  }

  /** In a base of at least 2 each digit lies in [0, b) and the quotient is not negative. */
  lemma DigitRange(i: int, b: int)
    requires i > 0 && b >= 2
    ensures 0 <= CsRem(i, b) < b && 0 <= CsQuot(i, b)
  {
    CsDivisionIsEuclidean(i, b);
    DivisionShrinks(i, b);
  }

  lemma BoundAlgebra(d: real, bb: real, rest: real, t: real)
    requires 0.0 <= d <= bb - 1.0 && 0.0 <= rest < bb && t == d + rest / bb
    ensures 0.0 <= t < bb
  {
    assert rest / bb < 1.0;
  }

  /** In a base of at least 2, `b` times the radical inverse lies in [0, b). */
  lemma {:induction false} ScaledBound(i: int, b: int)
    requires b >= 2
    ensures 0.0 <= ScaledRadicalInverse(i, b) < b as real
    decreases if i > 0 then i else 0
  {
    if i > 0 {
      QuotientDecreases(i, b);
      DigitRange(i, b);
      ScaledBound(CsQuot(i, b), b);
      BoundAlgebra(CsRem(i, b) as real, b as real, ScaledRadicalInverse(CsQuot(i, b), b), ScaledRadicalInverse(i, b));
    }
  }

  /** For base at least 2 and any index, the value lies in [0, 1). */
  lemma HaltonInUnitInterval(i: int, b: int)
    requires b >= 2
    ensures 0.0 <= Halton(i, b) < 1.0
  {
    ScaledBound(i, b);
    UnitAlgebra(ScaledRadicalInverse(i, b), b as real, Halton(i, b));
  }

  lemma UnitAlgebra(t: real, bb: real, h: real)
    requires 0.0 <= t < bb && h == t / bb
    ensures 0.0 <= h < 1.0
  {
  }

  lemma RecurrenceAlgebra(d: real, bb: real, rest: real, t: real)
    requires bb != 0.0 && t == d + rest / bb
    ensures t / bb == d / bb + (rest / bb) / bb
  {
  }

  /** The radical-inverse recurrence in the usual digit form: the lowest base-`b` digit
      of `i` over `b`, plus the radical inverse of the remaining digits over `b`. */
  lemma HaltonRecurrence(i: int, b: int)
    requires i > 0 && b >= 2
    ensures Halton(i, b) == ((i % b) as real) / (b as real) + Halton(i / b, b) / (b as real)
  {
    QuotientDecreases(i, b);
    CsDivisionIsEuclidean(i, b);
    RecurrenceAlgebra((i % b) as real, b as real, ScaledRadicalInverse(i / b, b), ScaledRadicalInverse(i, b));
  }

  lemma SmallIndex(i: int, b: int)
    requires 0 < i < b
    ensures CsQuot(i, b) == 0 && CsRem(i, b) == i
  {
    CsDivisionIsEuclidean(i, b);
    SmallDivision(i, b);
  }

  lemma SmallDivision(i: int, b: int)
    requires 0 <= i < b
    ensures i / b == 0 && i % b == i
  {
  }

  /** A single-digit index is its digit over the base. */
  lemma HaltonSingleDigit(i: int, b: int)
    requires b >= 2 && 0 < i < b
    ensures Halton(i, b) == (i as real) / (b as real)
  {
    SmallIndex(i, b);
    ScaledUnfold(i, b);
    assert ScaledRadicalInverse(0, b) == 0.0;
  }

  /** The values a generator yields from index `start` on, `n` of them, in base `b`:
      the index advances by one with 32-bit wrap-around after each value. */
  function HaltonRun(start: int, b: int, n: nat): (r: seq<real>)
    requires b != 0 && b != 1
    ensures |r| == n
  {
    seq(n, k requires 0 <= k < n => Halton(WrapInt32(start + k), b))
  }

  class LowDiscrepancySequence {
    var sequenceIndex: int
    var sequenceBase1: int
    var sequenceBase2: int

    /** The index is a C# int. */
    ghost predicate Valid()
      reads this
    {
      IsInt32(sequenceIndex)
    }

    /** The default generator starts at index 0 with bases 3 and 5. */
    constructor Default()
      ensures Valid()
      ensures sequenceIndex == 0 && sequenceBase1 == 3 && sequenceBase2 == 5
    {
      sequenceIndex := 0;
      sequenceBase1 := 3;
      sequenceBase2 := 5;
    }

    constructor (startIndex: int, sequenceBase1: int, sequenceBase2: int)
      requires IsInt32(startIndex)
      ensures Valid()
      ensures sequenceIndex == startIndex
      ensures this.sequenceBase1 == sequenceBase1 && this.sequenceBase2 == sequenceBase2
    {
      sequenceIndex := startIndex;
      this.sequenceBase1 := sequenceBase1;
      this.sequenceBase2 := sequenceBase2;
    }

    /** Yields the value at the current index in the first base, then advances the
        index by exactly one (wrapping at the 32-bit limit). */
    method GetNextValue() returns (value: real)
      requires Valid() && HaltonDefined(sequenceIndex, sequenceBase1)
      modifies this
      ensures Valid()
      ensures sequenceBase1 == old(sequenceBase1) && sequenceBase2 == old(sequenceBase2)
      ensures value == Halton(old(sequenceIndex), sequenceBase1)
      ensures sequenceIndex == WrapInt32(old(sequenceIndex) + 1)
    {
      value := GetHaltonValue(sequenceIndex, sequenceBase1);
      sequenceIndex := WrapInt32(sequenceIndex + 1);
    }

    /** Yields the values at the current index in both bases, then advances the index
        once. */
    method GetNextValues2() returns (value: Vec2)
      requires Valid()
      requires HaltonDefined(sequenceIndex, sequenceBase1) && HaltonDefined(sequenceIndex, sequenceBase2)
      modifies this
      ensures Valid()
      ensures sequenceBase1 == old(sequenceBase1) && sequenceBase2 == old(sequenceBase2)
      ensures value == Vec2(Halton(old(sequenceIndex), sequenceBase1), Halton(old(sequenceIndex), sequenceBase2))
      ensures sequenceIndex == WrapInt32(old(sequenceIndex) + 1)
    {
      var result1 := GetHaltonValue(sequenceIndex, sequenceBase1);
      var result2 := GetHaltonValue(sequenceIndex, sequenceBase2);
      sequenceIndex := WrapInt32(sequenceIndex + 1);
      value := Vec2(result1, result2);
    }
  }

  /** Draws `n` values from generator `g` in its first base. */
  method DrawValues(g: LowDiscrepancySequence, n: nat) returns (values: seq<real>)
    requires g.Valid() && g.sequenceBase1 != 0 && g.sequenceBase1 != 1
    modifies g
    ensures g.Valid()
    ensures g.sequenceBase1 == old(g.sequenceBase1) && g.sequenceBase2 == old(g.sequenceBase2)
    ensures values == HaltonRun(old(g.sequenceIndex), g.sequenceBase1, n)
    ensures g.sequenceIndex == WrapInt32(old(g.sequenceIndex) + n)
  {
    var start := g.sequenceIndex;
    values := [];
    var k := 0;
    while k < n
      invariant 0 <= k <= n
      invariant g.Valid()
      invariant g.sequenceBase1 == old(g.sequenceBase1) && g.sequenceBase2 == old(g.sequenceBase2)
      invariant g.sequenceIndex == WrapInt32(start + k)
      invariant values == HaltonRun(start, g.sequenceBase1, k)
    {
      var v := g.GetNextValue();
      WrapShift(start + k, 1);
      values := values + [v];
      k := k + 1;
    }
  }

  /** Drawing `n` values and then `m` more yields the same values as drawing `n + m`
      at once: a generator resumed at the index where a run stopped continues that
      run, across the 32-bit wrap-around too. */
  lemma HaltonRunSplits(start: int, b: int, n: nat, m: nat)
    requires b != 0 && b != 1
    ensures HaltonRun(start, b, n) + HaltonRun(WrapInt32(start + n), b, m) == HaltonRun(start, b, n + m)
  {
    var whole := HaltonRun(start, b, n + m);
    var joined := HaltonRun(start, b, n) + HaltonRun(WrapInt32(start + n), b, m);
    forall k | n <= k < n + m
      ensures joined[k] == whole[k]
    {
      WrapShift(start + n, k - n);
      assert WrapInt32(WrapInt32(start + n) + (k - n)) == WrapInt32(start + k);
    }
    assert forall k :: 0 <= k < n + m ==> joined[k] == whole[k];
  }

  /** Wrapping before adding `k` wraps to the same value as adding first. */
  lemma WrapShift(i: int, k: int)
    ensures WrapInt32(WrapInt32(i) + k) == WrapInt32(i + k)
  {
    var m := 0x1_0000_0000;
    var j := (WrapInt32(i) - i) / m;
    assert WrapInt32(i) - i == j * m;
    assert WrapInt32(i) + k - Int32Min == (i + k - Int32Min) + j * m;
  }
}
