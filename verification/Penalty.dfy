/** The size penalty on rewards and fees: the 64-bit code against plain integers. */
module Penalty {
  import opened ChainTypes
  import opened Rules
  import opened WideArithmetic

  /** How far the product of the two factors falls short of the square of the median. */
  lemma FactorsFallShort(m: nat, s: nat)
    requires s <= 2 * m
    ensures (2 * m - s) * s == m * m - (s - m) * (s - m)
  {
    var t: int := s - m;
    assert 2 * m - s == m - t && s == m + t;
    Distribute(m, -t, m + t);
    Distribute(m, t, m);
    Distribute(m, t, -t);
  }

  lemma SquareGrows(x: nat, y: nat)
    requires x <= y
    ensures x * x <= y * y
  {
    MulBound(x, x, y, y);
  }

  lemma FactorBound(m: u32, s: u32)
    requires s <= 2 * m
    ensures 0 <= (2 * m - s) * s <= m * m < TWO64
  {
    FactorsFallShort(m, s);
    MulBound(0, 0, 2 * m - s, s);
    if s >= m { SquareGrows(0, s - m); } else { SquareGrows(0, m - s); assert (m - s) * (m - s) == (s - m) * (s - m); }
    MulBound(m, m, TWO32 - 1, TWO32 - 1);
  }

  lemma DivisionMonotone(x: int, y: int, d: int)
    requires d > 0 && x <= y
    ensures x / d <= y / d
  {
    var qx, qy := x / d, y / d;
    Distribute(qy - qx, qx, d);
    Multiple(qx - qy, d);
    Distribute(qx - qy, qy, d);
  }

  lemma DivisionBelow(x: int, y: int, d: int)
    requires d > 0 && x < y * d
    ensures x / d < y
  {
    var q := x / d;
    Distribute(q - y, y, d);
    Multiple(q - y, d);
  }

  /** A block above the median loses part of any positive amount. */
  lemma PenalizedIsLess(amount: nat, m: nat, s: nat)
    requires amount > 0 && m < s <= 2 * m
    ensures Penalized(amount, m, s) < amount
  {
    FactorsFallShort(m, s);
    MulBound(1, 1, s - m, s - m);
    var factor := Times(2 * m - s, s);
    assert factor < m * m;
    assert Times(amount, factor) < amount * (m * m) by {
      Distribute(factor - m * m, m * m, amount);
      Multiple(amount, m * m - factor);
      assert amount * (m * m - factor) == amount * (m * m) - amount * factor by { Distribute(m * m, -factor, amount); }
    }
    DivisionBelow(Times(amount, factor), amount, Times(m, m));
  }

  lemma SquareOf(m: nat)
    requires m > 0
    ensures m * m > 0
  {
  }

  /** The penalty written out. */
  lemma PenalizedIs(amount: nat, m: nat, s: nat)
    requires s <= 2 * m
    ensures s <= m ==> Penalized(amount, m, s) == amount
    ensures s > m ==> m * m > 0 && Penalized(amount, m, s) == amount * ((2 * m - s) * s) / (m * m)
  {
    if s > m {
      SquareOf(m);
      if amount == 0 { assert amount * ((2 * m - s) * s) == 0; }
    }
  }

  /** A larger block never keeps more. */
  lemma PenalizedDecreases(amount: nat, m: nat, s: nat, t: nat)
    requires s <= t <= 2 * m
    ensures Penalized(amount, m, t) <= Penalized(amount, m, s)
  {
    if amount > 0 && t > m {
      if s <= m {
        PenalizedIsLess(amount, m, t);
      } else {
        FactorsFallShort(m, s);
        FactorsFallShort(m, t);
        SquareGrows(s - m, t - m);
        MulBound(amount, Times(2 * m - t, t), amount, Times(2 * m - s, s));
        DivisionMonotone(Times(amount, Times(2 * m - t, t)), Times(amount, Times(2 * m - s, s)), Times(m, m));
      }
    }
  }

  lemma TwoDivisions(amount: nat, m: nat, s: nat, q: nat)
    requires amount > 0 && m < s <= 2 * m
    requires q == Times(amount, Times(2 * m - s, s)) / m / m
    ensures q == Penalized(amount, m, s) < amount
  {
    DivideTwice(Times(amount, Times(2 * m - s, s)), m);
    PenalizedIsLess(amount, m, s);
  }

  lemma FactorFits(m: u32, s: u32)
    requires s <= 2 * m
    ensures 0 <= Times(2 * m - s, s) < TWO64 && Wrap64((2 * m - s) * s) == Times(2 * m - s, s)
  {
    FactorBound(m, s);
  }

  lemma ProductOf(a: nat, b: nat)
    ensures a * b == Times(a, b)
  {
  }

  /** `getPenalizedAmount`. The asserted bounds on its arguments are its requirements; its two final assertions,
      a zero high word and a result below the amount, always hold. */
  method GetPenalizedAmount(amount: u64, median: u32, size: u32) returns (penalized: u64)
    requires size <= 2 * median
    ensures penalized == Penalized(amount, median, size)
    ensures size <= median ==> penalized == amount
    ensures size > median ==> penalized == amount * ((2 * median - size) * size) / (median * median)
  {
    hide Times, Penalized, Wrap64;
    PenalizedIs(amount, median, size);
    Unpenalized(amount, median, size);
    if amount == 0 { return 0; }
    if size <= median { return amount; }
    FactorFits(median, size);
    var multiplicand: u64 := 2 * median - size;
    multiplicand := Wrap64(multiplicand * size);
    ProductOf(amount, multiplicand);
    var low, high := Mul128(amount, multiplicand);
    var remainder;
    high, low, remainder := Div128By32(high, low, median);
    high, low, remainder := Div128By32(high, low, median);
    TwoDivisions(amount, median, size, high * TWO64 + low);
    assert high == 0 && low < amount;
    return low;
  }

  lemma Unpenalized(amount: nat, m: nat, s: nat)
    requires s <= 2 * m
    ensures amount == 0 || s <= m ==> Penalized(amount, m, s) == amount
  {
  }

  /** A 64-bit difference stored as a signed number. */
  function Signed64(x: int): (r: int)
    ensures -0x8000_0000_0000_0000 <= r < 0x8000_0000_0000_0000 && Wrap64(r) == Wrap64(x)
  {
    var w := Wrap64(x);
    if w < 0x8000_0000_0000_0000 then w else w - TWO64
  }

  /** What a block of this size keeps of base reward and fee together, each rounded down. */
  function AfterPenalty(base: nat, median: nat, size: nat, fee: nat): int
    requires size <= 2 * median
  {
    if size <= median then base + fee
    else
      SquareOf(median);
      base * ((2 * median - size) * size) / (median * median) + fee * ((2 * median - size) * size) / (median * median)
  }

  /** The reward written out: nothing above twice the median, everything up to the median, and in between the penalty on
      base reward and fee alike. */
  lemma RewardIs(base: u64, median: nat, size: nat, fee: u64)
    ensures BlockReward(base, median, size, fee).None? <==> size > 2 * median
    ensures size <= 2 * median ==>
              BlockReward(base, median, size, fee)
              == Some((Wrap64(AfterPenalty(base, median, size, fee)), AfterPenalty(base, median, size, fee) - fee))
  {
    hide Penalized, Wrap64;
    if size <= 2 * median {
      PenalizedIs(base, median, size);
      PenalizedIs(fee, median, size);
    }
  }

  /** `getBlockReward` from the base reward on, in 64-bit arithmetic: there is none above twice the median; up to the
      median it is base reward and fee; in between each of them is cut by the penalty and rounded down. The emission
      changes by that minus the fee, modulo 2^64. */
  method GetBlockReward(base: u64, median: u32, size: u32, fee: u64) returns (r: Option<(u64, int)>)
    ensures r.None? <==> size > 2 * median
    ensures r.Some? && size <= median ==> r.value.0 == (base + fee) % TWO64 && r.value.1 % TWO64 == base
    ensures r.Some? && size > median ==>
              var kept := base * ((2 * median - size) * size) / (median * median)
                          + fee * ((2 * median - size) * size) / (median * median);
              r.value.0 == kept % TWO64 && r.value.1 % TWO64 == (kept - fee) % TWO64
    ensures r.Some? ==> -0x8000_0000_0000_0000 <= r.value.1 < 0x8000_0000_0000_0000
    ensures r.Some? <==> BlockReward(base, median, size, fee).Some?
    ensures r.Some? ==> r.value.0 == BlockReward(base, median, size, fee).value.0
    ensures r.Some? ==> Wrap64(r.value.1) == Wrap64(BlockReward(base, median, size, fee).value.1)
    ensures r.Some? ==> Wrap64(r.value.0 - r.value.1) == fee
  {
    hide Penalized, Signed64;
    if size > 2 * median { return None; }
    var penalizedBase := GetPenalizedAmount(base, median, size);
    var penalizedFee := GetPenalizedAmount(fee, median, size);
    var change := Signed64(penalizedBase - Wrap64(fee - penalizedFee));
    RewardWords(penalizedBase, penalizedFee, fee);
    return Some((Wrap64(penalizedBase + penalizedFee), change));
  }

  lemma RewardWords(base: u64, penalized: u64, fee: u64)
    ensures var change := Signed64(base - Wrap64(fee - penalized));
      && Wrap64(change) == Wrap64(base - (fee - penalized))
      && Wrap64(Wrap64(base + penalized) - change) == fee
  {
    hide Signed64, Wrap64;
    var x := base - (fee - penalized);
    WrapDifference(base, fee - penalized);
    var change := Signed64(base - Wrap64(fee - penalized));
    WrapDifference(Wrap64(base + penalized), change);
    WrapDifference(Wrap64(base + penalized), x);
    WrapSum(-x, base + penalized);
    NoWrap(fee);
  }
}
