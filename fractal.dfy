/** The fractal hit test: a step of the sixteenth-note grid is a hit when the
    binomial coefficient C(12 + variation, step) is odd (row 12 + variation of
    Pascal's triangle modulo 2, the Sierpinski triangle), or when one of three
    bit patterns of the step holds. */
module Fractal {

  /** The exact binomial coefficient, by Pascal's rule; 0 when k > n, as
      Python's `math.comb`. */
  function Binomial(n: nat, k: nat): nat
  {
    if k == 0 then 1
    else if n == 0 then 0
    else Binomial(n - 1, k - 1) + Binomial(n - 1, k)
  }

  /** Python's `a & b` on non-negative integers, bit by bit from the lowest. */
  function BitAnd(a: nat, b: nat): (r: nat)
    ensures r <= a && r <= b
  {
    if a == 0 || b == 0 then 0
    else 2 * BitAnd(a / 2, b / 2) + (if a % 2 == 1 && b % 2 == 1 then 1 else 0)
  }

  /** Python's `a >> k` on a non-negative integer. */
  function ShiftRight(a: nat, k: nat): (r: nat)
    ensures r <= a
    ensures k > 0 && a > 0 ==> r < a
  {
    if k == 0 then a else ShiftRight(a / 2, k - 1)
  }

  predicate PascalHit(step: nat, variation: nat)
  {
    Binomial(12 + variation, step) % 2 == 1
  }

  /** `step & (step >> k) == 0` for k = 1, 2 or 3. */
  predicate BitwiseHit(step: nat)
  {
    BitAnd(step, ShiftRight(step, 1)) == 0 ||
    BitAnd(step, ShiftRight(step, 2)) == 0 ||
    BitAnd(step, ShiftRight(step, 3)) == 0
  }

  /** `is_sierpinski_hit(step, variation)`. */
  predicate IsSierpinskiHit(step: nat, variation: nat)
  {
    PascalHit(step, variation) || BitwiseHit(step)
  }

  /** `math.comb(n, k)` is 0 past the end of a row. */
  lemma {:induction false} BinomialPastRow(n: nat, k: nat)
    requires k > n
    ensures Binomial(n, k) == 0
  {
    if n > 0 {
      BinomialPastRow(n - 1, k - 1);
      BinomialPastRow(n - 1, k);
    }
  }

  /** Pascal's rule applied twice: C(n + 2, k + 2) = C(n, k) + 2 C(n, k + 1) + C(n, k + 2). */
  lemma PascalTwice(n: nat, k: nat)
    ensures Binomial(n + 2, k + 2) == Binomial(n, k) + 2 * Binomial(n, k + 1) + Binomial(n, k + 2)
  {
    assert Binomial(n + 2, k + 2) == Binomial(n + 1, k + 1) + Binomial(n + 1, k + 2);
    assert Binomial(n + 1, k + 1) == Binomial(n, k) + Binomial(n, k + 1);
    assert Binomial(n + 1, k + 2) == Binomial(n, k + 1) + Binomial(n, k + 2);
  }

  /** One induction step for EvenRowParity: from four consecutive entries
      of row n, starting at an even place i, to two entries of row n + 2. */
  lemma EvenRowStep(n: nat, i: nat, lower: nat, upper: nat)
    requires Binomial(n, i) % 2 == lower % 2 && Binomial(n, i + 1) % 2 == 0
    requires Binomial(n, i + 2) % 2 == upper % 2 && Binomial(n, i + 3) % 2 == 0
    ensures Binomial(n + 2, i + 2) % 2 == (lower + upper) % 2
    ensures Binomial(n + 2, i + 3) % 2 == 0
  {
    PascalTwice(n, i);
    PascalTwice(n, i + 1);
    EvenPlusOdd(Binomial(n, i), Binomial(n, i + 1), Binomial(n, i + 2), lower, upper);
    EvenPlusOdd(Binomial(n, i + 1), Binomial(n, i + 2), Binomial(n, i + 3), 0, 0);
  }

  /** Modulo 2, a + 2b + c only depends on a and c. */
  lemma EvenPlusOdd(a: nat, b: nat, c: nat, a': nat, c': nat)
    requires a % 2 == a' % 2 && c % 2 == c' % 2
    ensures (a + 2 * b + c) % 2 == (a' + c') % 2
  {
  }

  /** Modulo 2, row 2m of Pascal's triangle is row m spread out with zeros in
      the odd places: (1 + x)^(2m) = (1 + x^2)^m over GF(2). */
  lemma {:induction false} EvenRowParity(m: nat, j: nat)
    ensures Binomial(2 * m, 2 * j) % 2 == Binomial(m, j) % 2
    ensures Binomial(2 * m, 2 * j + 1) % 2 == 0
  {
    if m == 0 {
      if j > 0 {
        BinomialPastRow(0, j);
        BinomialPastRow(0, 2 * j);
      }
      BinomialPastRow(0, 2 * j + 1);
    } else {
      var n := 2 * (m - 1);
      EvenRowParity(m - 1, j);
      if j == 0 {
        assert Binomial(n + 1, 1) == Binomial(n, 0) + Binomial(n, 1);
        assert Binomial(n + 2, 1) == Binomial(n + 1, 0) + Binomial(n + 1, 1);
      } else {
        EvenRowParity(m - 1, j - 1);
        assert 2 * (j - 1) == 2 * j - 2;
        EvenRowStep(n, 2 * j - 2, Binomial(m - 1, j - 1), Binomial(m - 1, j));
        assert Binomial(m, j) == Binomial(m - 1, j - 1) + Binomial(m - 1, j);
      }
      assert 2 * m == n + 2;
    }
  }

  /** The parity of C(n, k) is 0 when k has a low bit that n lacks, and
      otherwise the parity of C(n / 2, k / 2). */
  lemma ParityHalving(n: nat, k: nat)
    ensures Binomial(n, k) % 2 == if k % 2 > n % 2 then 0 else Binomial(n / 2, k / 2) % 2
  {
    if n % 2 == 0 {
      EvenRowParity(n / 2, k / 2);
    } else {
      OddRowParity(n / 2, k);
    }
  }

  /** Modulo 2, row 2m + 1 of Pascal's triangle is row m with every entry
      doubled: C(2m + 1, k) has the parity of C(m, k / 2). */
  lemma OddRowParity(m: nat, k: nat)
    ensures Binomial(2 * m + 1, k) % 2 == Binomial(m, k / 2) % 2
  {
    var n, j := 2 * m, k / 2;
    if k == 0 {
    } else if k % 2 == 0 {
      OddRowEvenPlace(n, m, j);
    } else {
      EvenRowParity(m, j);
      assert k == 2 * j + 1;
      assert Binomial(n + 1, 2 * j + 1) == Binomial(n, 2 * j) + Binomial(n, 2 * j + 1);
    }
  }

  lemma OddRowEvenPlace(n: nat, m: nat, j: nat)
    requires n == 2 * m && j > 0
    ensures Binomial(n + 1, 2 * j) % 2 == Binomial(m, j) % 2
  {
    var i := 2 * j - 1;
    EvenRowParity(m, j);
    EvenRowParity(m, j - 1);
    assert i == 2 * (j - 1) + 1 && i + 1 == 2 * j;
    assert Binomial(n + 1, i + 1) == Binomial(n, i) + Binomial(n, i + 1);
  }

  /** Lucas' theorem for the prime 2: C(n, k) is odd exactly when every bit
      of k is also a bit of n. This is why the odd entries of Pascal's
      triangle draw the Sierpinski triangle. */
  lemma {:induction false} LucasParity(n: nat, k: nat)
    ensures Binomial(n, k) % 2 == 1 <==> BitAnd(k, n) == k
    decreases n
  {
    if n == 0 {
      if k > 0 {
        BinomialPastRow(0, k);
      }
    } else if k > 0 {
      ParityHalving(n, k);
      LucasParity(n / 2, k / 2);
      assert BitAnd(k, n) == 2 * BitAnd(k / 2, n / 2) + (if k % 2 == 1 && n % 2 == 1 then 1 else 0);
    }
  }

  /** On the sixteen steps of a bar the bit patterns fail only at steps 11,
      13 and 15. */
  lemma BitwiseHitTable(step: nat)
    requires step < 16
    ensures BitwiseHit(step) <==> step != 11 && step != 13 && step != 15
  {
    if step < 8 {
      BitwiseHitLow(step);
    } else if step < 12 {
      BitwiseHitMiddle(step);
    } else {
      BitwiseHitHigh(step);
    }
  }

  /** Steps 0 to 7 have no two set bits one place apart, or none two places apart. */
  lemma BitwiseHitLow(step: nat)
    requires step < 8
    ensures BitwiseHit(step)
  {
    if step == 0 { assert BitwiseHit(0); }
    else if step == 1 { assert BitwiseHit(1); }
    else if step == 2 { assert BitwiseHit(2); }
    else if step == 3 { assert BitwiseHit(3); }
    else if step == 4 { assert BitwiseHit(4); }
    else if step == 5 { assert BitwiseHit(5); }
    else if step == 6 { assert BitwiseHit(6); }
    else { assert BitwiseHit(7); }
  }

  lemma BitwiseHitMiddle(step: nat)
    requires 8 <= step < 12
    ensures BitwiseHit(step) <==> step != 11
  {
    if step == 8 { assert BitwiseHit(8); }
    else if step == 9 { assert BitwiseHit(9); }
    else if step == 10 { assert BitwiseHit(10); }
    else { assert !BitwiseHit(11); }
  }

  lemma BitwiseHitHigh(step: nat)
    requires 12 <= step < 16
    ensures BitwiseHit(step) <==> step == 12 || step == 14
  {
    if step == 12 { assert BitwiseHit(12); }
    else if step == 13 { assert !BitwiseHit(13); }
    else if step == 14 { assert BitwiseHit(14); }
    else { assert !BitwiseHit(15); }
  }

  /** On the sixteen steps of a bar: a hit, except at steps 11, 13 and 15,
      which are hits exactly when their bits are all bits of 12 + variation. */
  lemma SierpinskiHitTable(step: nat, variation: nat)
    requires step < 16
    ensures IsSierpinskiHit(step, variation) <==>
      (step != 11 && step != 13 && step != 15) || BitAnd(step, 12 + variation) == step
  {
    BitwiseHitTable(step);
    LucasParity(12 + variation, step);
  }

  /** Step 0 is a hit for every variation: C(n, 0) = 1. */
  lemma HitAtStepZero(variation: nat)
    ensures IsSierpinskiHit(0, variation)
    ensures PascalHit(0, variation)
  {
  }

  /** Which of the steps 11, 13 and 15 have all their bits in 12 + variation,
      for variation below 8 (rows 12 to 19 of the triangle). */
  lemma MissingStepBits(step: nat, variation: nat)
    requires (step == 11 || step == 13 || step == 15) && variation < 8
    ensures BitAnd(step, 12 + variation) == step <==>
      variation == 3 || (step == 13 && variation == 1)
  {
    if variation < 4 {
      if step == 11 {
        StepBits11Low(variation);
      } else if step == 13 {
        StepBits13Low(variation);
      } else {
        StepBits15Low(variation);
      }
    } else {
      if step == 11 {
        StepBits11High(variation);
      } else if step == 13 {
        StepBits13High(variation);
      } else {
        StepBits15High(variation);
      }
    }
  }

  lemma StepBits11Low(variation: nat)
    requires variation < 4
    ensures BitAnd(11, 12 + variation) == 11 <==> variation == 3
  {
    if variation == 0 { assert BitAnd(11, 12) != 11; }
    else if variation == 1 { assert BitAnd(11, 13) != 11; }
    else if variation == 2 { assert BitAnd(11, 14) != 11; }
    else { assert BitAnd(11, 15) == 11; }
  }

  lemma StepBits13Low(variation: nat)
    requires variation < 4
    ensures BitAnd(13, 12 + variation) == 13 <==> variation == 1 || variation == 3
  {
    if variation == 0 { assert BitAnd(13, 12) != 13; }
    else if variation == 1 { assert BitAnd(13, 13) == 13; }
    else if variation == 2 { assert BitAnd(13, 14) != 13; }
    else { assert BitAnd(13, 15) == 13; }
  }

  lemma StepBits15Low(variation: nat)
    requires variation < 4
    ensures BitAnd(15, 12 + variation) == 15 <==> variation == 3
  {
    if variation == 0 { assert BitAnd(15, 12) != 15; }
    else if variation == 1 { assert BitAnd(15, 13) != 15; }
    else if variation == 2 { assert BitAnd(15, 14) != 15; }
    else { assert BitAnd(15, 15) == 15; }
  }

  // Rows 16 to 19 lack the bit of value 8, which steps 11, 13 and 15 all have.

  lemma StepBits11High(variation: nat)
    requires 4 <= variation < 8
    ensures BitAnd(11, 12 + variation) != 11
  {
    if variation == 4 { assert BitAnd(11, 16) != 11; }
    else if variation == 5 { assert BitAnd(11, 17) != 11; }
    else if variation == 6 { assert BitAnd(11, 18) != 11; }
    else { assert BitAnd(11, 19) != 11; }
  }

  lemma StepBits13High(variation: nat)
    requires 4 <= variation < 8
    ensures BitAnd(13, 12 + variation) != 13
  {
    if variation == 4 { assert BitAnd(13, 16) != 13; }
    else if variation == 5 { assert BitAnd(13, 17) != 13; }
    else if variation == 6 { assert BitAnd(13, 18) != 13; }
    else { assert BitAnd(13, 19) != 13; }
  }

  lemma StepBits15High(variation: nat)
    requires 4 <= variation < 8
    ensures BitAnd(15, 12 + variation) != 15
  {
    if variation == 4 { assert BitAnd(15, 16) != 15; }
    else if variation == 5 { assert BitAnd(15, 17) != 15; }
    else if variation == 6 { assert BitAnd(15, 18) != 15; }
    else { assert BitAnd(15, 19) != 15; }
  }

  /** The steps of a bar that miss for a variation below 8: 11 and 15
      unless the variation is 3, and 13 unless it is 1 or 3. */
  predicate Gap(step: nat, variation: nat)
  {
    ((step == 11 || step == 15) && variation != 3) ||
    (step == 13 && variation != 1 && variation != 3)
  }

  /** For the variations the generator uses (below 8, so rows 12 to 19),
      every step of a bar is a hit except the gaps. */
  lemma HitPattern(step: nat, variation: nat)
    requires step < 16 && variation < 8
    ensures IsSierpinskiHit(step, variation) <==> !Gap(step, variation)
  {
    SierpinskiHitTable(step, variation);
    if step == 11 || step == 13 || step == 15 {
      MissingStepBits(step, variation);
    }
  }
}
