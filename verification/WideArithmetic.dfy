/** 128-bit products and quotients from 64-bit words, and the proof-of-work comparison. */
module WideArithmetic {
  import opened ChainTypes

  // ---------------------------------------------------------------------------------------------
  // Plain integer facts

  lemma MulBound(a: nat, b: nat, n: nat, m: nat)
    requires a <= n && b <= m
    ensures a * b <= n * m
  {
    assert a * b <= n * b;
    assert n * b <= n * m;
  }

  lemma Distribute(x: int, y: int, z: int)
    ensures (x + y) * z == x * z + y * z
  {
  }

  lemma Reassociate(x: int, k: int, z: int)
    ensures (x * k) * z == (x * z) * k
  {
  }

  /** Quotient and remainder are determined by the division equation. */
  lemma DivisionIsUnique(n: int, d: int, q: int, r: int)
    requires d > 0 && n == q * d + r && 0 <= r < d
    ensures q == n / d && r == n % d
  {
    var q', r' := n / d, n % d;
    assert n == q' * d + r';
    Distribute(q - q', q', d);
    Multiple(q - q', d);
  }

  lemma Multiple(k: int, d: int)
    requires d > 0
    ensures k >= 1 ==> k * d >= d
    ensures k <= -1 ==> k * d <= -d
    ensures k >= 0 ==> k * d >= 0
  {
    if k >= 1 { MulBound(1, d, k, d); }
    if k <= -1 { MulBound(1, d, -k, d); Distribute(k, -k, d); }
  }

  lemma QuotientBelow(n: nat, d: nat, m: nat)
    requires d > 0 && n < m * d
    ensures n / d < m && n == n / d * d + n % d
  {
    if n / d >= m { MulBound(m, d, n / d, d); }
  }

  lemma DivideTwice(n: nat, d: nat)
    requires d > 0
    ensures d * d > 0 && (n / d) / d == n / (d * d)
  {
    DivisionEquation(n, d);
    DivisionEquation(n / d, d);
    NestedDivision(n, d, n / d, n % d, n / d / d, n / d % d);
  }

  lemma DivisionEquation(n: nat, d: nat)
    requires d > 0
    ensures n == n / d * d + n % d && 0 <= n % d < d && n / d >= 0
  {
  }

  lemma NestedDivision(n: nat, d: nat, q: nat, r: nat, q2: nat, r2: nat)
    requires n == q * d + r && r < d && q == q2 * d + r2 && r2 < d
    ensures d * d > 0 && q2 == n / (d * d)
  {
    TwoDigits(q2, r2, r, d);
    DivisionIsUnique(n, d * d, q2, r2 * d + r);
  }

  /** A number of two digits, and its place in a larger one. */
  lemma TwoDigits(q: nat, x: nat, y: nat, d: nat)
    requires x < d && y < d
    ensures (q * d + x) * d + y == q * (d * d) + (x * d + y)
    ensures 0 <= x * d + y < d * d
  {
    Distribute(q * d, x, d);
    assert (q * d) * d == q * (d * d);
    MulBound(x, d, d - 1, d);
    MulBound(0, 0, x, d);
    Distribute(d, -1, d);
  }

  // ---------------------------------------------------------------------------------------------
  // mul128

  lemma SplitProduct(a: nat, b: nat, c: nat, d: nat)
    ensures (a * TWO32 + b) * (c * TWO32 + d) == (a * c) * TWO64 + (a * d + b * c) * TWO32 + b * d
  {
    var y := c * TWO32 + d;
    Distribute(a * TWO32, b, y);
    assert (a * TWO32) * y == (a * y) * TWO32 by { Reassociate(a, TWO32, y); }
    assert a * y == (a * c) * TWO32 + a * d by { Distribute(c * TWO32, d, a); Reassociate(c, TWO32, a); }
    assert b * y == (b * c) * TWO32 + b * d by { Distribute(c * TWO32, d, b); Reassociate(c, TWO32, b); }
  }

  lemma DigitProduct(a: u32, b: u32)
    ensures 0 <= a * b <= TWO64 - 2 * TWO32 + 1
  {
    MulBound(a, b, TWO32 - 1, TWO32 - 1);
    MulBound(0, 0, a, b);
  }

  lemma SplitWords(x: u64, y: u64)
    ensures var a, b, c, d := x / TWO32, x % TWO32, y / TWO32, y % TWO32;
      && 0 <= a * c <= TWO64 - 2 * TWO32 + 1 && 0 <= a * d <= TWO64 - 2 * TWO32 + 1
      && 0 <= b * c <= TWO64 - 2 * TWO32 + 1 && 0 <= b * d <= TWO64 - 2 * TWO32 + 1
      && x * y == (a * c) * TWO64 + (a * d + b * c) * TWO32 + b * d
  {
    var a: u32, b: u32 := x / TWO32, x % TWO32;
    var c: u32, d: u32 := y / TWO32, y % TWO32;
    SplitProduct(a, b, c, d);
    DigitProduct(a, c);
    DigitProduct(a, d);
    DigitProduct(b, c);
    DigitProduct(b, d);
  }

  /** `mul128`: the 128-bit product of two 64-bit words, low word first. */
  method Mul128(multiplier: u64, multiplicand: u64) returns (low: u64, high: u64)
    ensures high * TWO64 + low == multiplier * multiplicand
  {
    hide Wrap64;
    SplitWords(multiplier, multiplicand);
    var a, b := multiplier / TWO32, multiplier % TWO32;
    var c, d := multiplicand / TWO32, multiplicand % TWO32;
    var ac: u64, ad: u64, bc: u64, bd: u64 := a * c, a * d, b * c, b * d;
    var adbc := Wrap64(ad + bc);
    var adbcCarry := if adbc < ad then 1 else 0;
    low := Wrap64(bd + Wrap64(adbc * TWO32));
    var lowCarry := if low < bd then 1 else 0;
    Carries(ac, ad, bc, bd, adbc, adbcCarry, low, lowCarry);
    NoWrap(ac + adbc / TWO32 + adbcCarry * TWO32 + lowCarry);
    high := Wrap64(ac + adbc / TWO32 + adbcCarry * TWO32 + lowCarry);
  }

  /** `mul` in its two forms: by a 128-bit type where the compiler has one, and by `mul128` elsewhere. */
  method Mul(a: u64, b: u64, native: bool) returns (low: u64, high: u64)
    ensures high * TWO64 + low == a * b
    ensures low == Wrap64(a * b)
  {
    if native {
      var wide := a * b;
      NativeWords(a, b);
      low, high := Wrap64(wide), wide / TWO64;
    } else {
      low, high := Mul128(a, b);
      DivisionIsUnique(a * b, TWO64, high, low);
    }
  }

  lemma NativeWords(a: u64, b: u64)
    ensures 0 <= (a * b) / TWO64 < TWO64 && Wrap64(a * b) == a * b - (a * b) / TWO64 * TWO64
  {
    MulBound(0, 0, a, b);
    MulBound(a, b, TWO64 - 1, TWO64 - 1);
  }

  /** The two carries of `mul128` account for everything that wraps. */
  lemma Carries(ac: u64, ad: u64, bc: u64, bd: u64, adbc: u64, adbcCarry: int, low: u64, lowCarry: int)
    requires ac <= TWO64 - 2 * TWO32 + 1 && ad <= TWO64 - 2 * TWO32 + 1
    requires bc <= TWO64 - 2 * TWO32 + 1 && bd <= TWO64 - 2 * TWO32 + 1
    requires adbc == Wrap64(ad + bc) && adbcCarry == (if adbc < ad then 1 else 0)
    requires low == Wrap64(bd + Wrap64(adbc * TWO32)) && lowCarry == (if low < bd then 1 else 0)
    ensures ac * TWO64 + (ad + bc) * TWO32 + bd
         == (ac + adbc / TWO32 + adbcCarry * TWO32 + lowCarry) * TWO64 + low
    ensures 0 <= ac + adbc / TWO32 + adbcCarry * TWO32 + lowCarry < TWO64
  {
    assert ad + bc == adbc + adbcCarry * TWO64;
    var h, l := adbc / TWO32, adbc % TWO32;
    assert adbc * TWO32 == h * TWO64 + l * TWO32;
    assert Wrap64(adbc * TWO32) == l * TWO32;
    assert bd + l * TWO32 == low + lowCarry * TWO64;
  }

  // ---------------------------------------------------------------------------------------------
  // check_hash

  /** The little-endian value of a hash of four 64-bit words. */
  function HashValue(w: seq<u64>): nat
    requires |w| == 4
  {
    w[0] + w[1] * TWO64 + w[2] * (TWO64 * TWO64) + w[3] * (TWO64 * TWO64 * TWO64)
  }

  lemma HashTimes(w: seq<u64>, d: u64)
    requires |w| == 4
    ensures HashValue(w) * d ==
            w[0] * d + (w[1] * d) * TWO64 + (w[2] * d) * (TWO64 * TWO64) + (w[3] * d) * (TWO64 * TWO64 * TWO64)
  {
    var x0, x1, x2, x3 := w[0], w[1] * TWO64, w[2] * (TWO64 * TWO64), w[3] * (TWO64 * TWO64 * TWO64);
    Distribute(x0 + x1 + x2, x3, d);
    Distribute(x0 + x1, x2, d);
    Distribute(x0, x1, d);
    Reassociate(w[1], TWO64, d);
    Reassociate(w[2], TWO64 * TWO64, d);
    Reassociate(w[3], TWO64 * TWO64 * TWO64, d);
  }

  /** The carry of a 64-bit addition, and of one with a carry in. */
  predicate Cadd(a: u64, b: u64) {
    Wrap64(a + b) < a
  }

  predicate Cadc(a: u64, b: u64, c: bool) {
    Wrap64(a + b) < a || (c && Wrap64(a + b) == TWO64 - 1)
  }

  lemma CarryIsExact(a: u64, b: u64, c: bool)
    ensures Cadc(a, b, c) <==> a + b + (if c then 1 else 0) >= TWO64
    ensures Cadd(a, b) <==> a + b >= TWO64
  {
  }

  /** Chaining the carries word by word decides whether a 320-bit sum stays below 2^256. */
  lemma CarryChain(l0: u64, h0: u64, l1: u64, h1: u64, l2: u64, h2: u64, l3: u64, h3: u64)
    ensures (h3 == 0 && !Cadc(h2, l3, Cadc(h1, l2, Cadd(h0, l1)))) <==>
            (h0 * TWO64 + l0) + (h1 * TWO64 + l1) * TWO64 + (h2 * TWO64 + l2) * (TWO64 * TWO64)
            + (h3 * TWO64 + l3) * (TWO64 * TWO64 * TWO64) < TWO64 * TWO64 * TWO64 * TWO64
  {
    hide Cadd, Cadc;
    CarryIsExact(h0, l1, false);
    var c1 := Cadd(h0, l1);
    CarryIsExact(h1, l2, c1);
    var c2 := Cadc(h1, l2, c1);
    CarryIsExact(h2, l3, c2);
  }

  /** `check_hash`: the hash times the difficulty does not overflow 256 bits, with either form of `mul`. */
  method CheckHash(hash: seq<u64>, difficulty: u64, native: bool) returns (ok: bool)
    requires |hash| == 4
    ensures ok <==> HashValue(hash) * difficulty < TWO64 * TWO64 * TWO64 * TWO64
  {
    HashTimes(hash, difficulty);
    var top, high := Mul(hash[3], difficulty, native);
    if high != 0 {
      TopWordDecides(hash, difficulty, top, high);
      return false;
    }
    ghost var h3 := high;
    var low, cur := Mul(hash[0], difficulty, native);
    ghost var l0 := low;
    ghost var h0 := cur;
    low, high := Mul(hash[1], difficulty, native);
    ghost var l1 := low;
    var carry := Cadd(cur, low);
    cur := high;
    low, high := Mul(hash[2], difficulty, native);
    CarryChain(l0, h0, l1, cur, low, high, top, h3);
    carry := Cadc(cur, low, carry);
    carry := Cadc(high, top, carry);
    return !carry;
  }

  lemma TopWordDecides(hash: seq<u64>, difficulty: u64, top: u64, high: u64)
    requires |hash| == 4 && hash[3] * difficulty == high * TWO64 + top && high != 0
    ensures HashValue(hash) * difficulty >= TWO64 * TWO64 * TWO64 * TWO64
  {
    HashTimes(hash, difficulty);
    MulBound(0, 0, hash[0], difficulty);
    MulBound(0, 0, hash[1], difficulty);
    MulBound(0, 0, hash[2], difficulty);
  }

  // ---------------------------------------------------------------------------------------------
  // div128_32

  /** `div_with_reminder`: one step of long division in base 2^32. */
  method DivWithRemainder(dividend: u32, divisor: u32, remainder: u32) returns (quotient: u32, rest: u32)
    requires remainder < divisor
    ensures remainder * TWO32 + dividend == quotient * divisor + rest && rest < divisor
  {
    var wide := remainder * TWO32 + dividend;
    QuotientBelow(wide, divisor, TWO32);
    return wide / divisor, wide % divisor;
  }

  lemma LongDivision(q3: nat, q2: nat, q1: nat, q0: nat, d: nat)
    ensures (q3 * (TWO32 * TWO32 * TWO32) + q2 * (TWO32 * TWO32) + q1 * TWO32 + q0) * d ==
            (q3 * d) * (TWO32 * TWO32 * TWO32) + (q2 * d) * (TWO32 * TWO32) + (q1 * d) * TWO32 + q0 * d
  {
    var x3, x2, x1 := q3 * (TWO32 * TWO32 * TWO32), q2 * (TWO32 * TWO32), q1 * TWO32;
    Distribute(x3 + x2 + x1, q0, d);
    Distribute(x3 + x2, x1, d);
    Distribute(x3, x2, d);
    Reassociate(q3, TWO32 * TWO32 * TWO32, d);
    Reassociate(q2, TWO32 * TWO32, d);
    Reassociate(q1, TWO32, d);
  }

  /** `div128_32`: the exact quotient and remainder of a 128-bit number by a 32-bit one. */
  method Div128By32(high: u64, low: u64, divisor: u32) returns (quotientHigh: u64, quotientLow: u64, remainder: u32)
    requires divisor > 0
    ensures quotientHigh * TWO64 + quotientLow == (high * TWO64 + low) / divisor
    ensures remainder == (high * TWO64 + low) % divisor
  {
    var q3, r3 := DivWithRemainder(high / TWO32, divisor, 0);
    var q2, r2 := DivWithRemainder(high % TWO32, divisor, r3);
    var q1, r1 := DivWithRemainder(low / TWO32, divisor, r2);
    var q0, r0 := DivWithRemainder(low % TWO32, divisor, r1);
    quotientHigh := q3 * TWO32 + q2;
    quotientLow := q1 * TWO32 + q0;
    remainder := r0;
    LongDivision(q3, q2, q1, q0, divisor);
    ghost var q := quotientHigh * TWO64 + quotientLow;
    assert q == q3 * (TWO32 * TWO32 * TWO32) + q2 * (TWO32 * TWO32) + q1 * TWO32 + q0;
    DivisionIsUnique(high * TWO64 + low, divisor, q, r0);
  }
}
