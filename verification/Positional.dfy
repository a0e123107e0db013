/** Fixed-width positional numbers, most significant digit first, in any base. */
module Positional {
  import opened ChainTypes
  import opened WideArithmetic

  type byte = x: int | 0 <= x < 256

  function Power(base: nat, n: nat): nat {
    if n == 0 then 1 else Power(base, n - 1) * base
  }

  lemma {:induction false} PowerGrows(base: nat, k: nat, n: nat)
    requires base > 0 && k <= n
    ensures 0 < Power(base, k) <= Power(base, n)
    decreases n
  {
    if k < n {
      PowerGrows(base, k, n - 1);
      MulBound(Power(base, n - 1), 1, Power(base, n - 1), base);
    } else if n > 0 {
      PowerGrows(base, k - 1, n - 1);
      MulBound(1, 1, Power(base, n - 1), base);
    }
  }

  lemma Powers256()
    ensures Power(256, 0) == 1 && Power(256, 1) == 256 && Power(256, 2) == 65536 && Power(256, 3) == 16777216
    ensures Power(256, 4) == 4294967296 && Power(256, 5) == 1099511627776 && Power(256, 6) == 281474976710656
    ensures Power(256, 7) == 72057594037927936 && Power(256, 8) == TWO64
  {
  }

  ghost predicate AreDigits(base: nat, s: seq<nat>) {
    forall i :: 0 <= i < |s| ==> s[i] < base
  }

  /** The number that `s` spells in `base`. */
  function Value(base: nat, s: seq<nat>): nat {
    if s == [] then 0 else Value(base, s[..|s| - 1]) * base + s[|s| - 1]
  }

  /** The `n` lowest digits of `v`. */
  function Digits(base: nat, n: nat, v: nat): (s: seq<nat>)
    requires base > 0
    ensures |s| == n && AreDigits(base, s)
  {
    if n == 0 then [] else Digits(base, n - 1, v / base) + [v % base]
  }

  /** The first digit weighs most. */
  lemma {:induction false} FirstWeighsMost(base: nat, x: nat, s: seq<nat>)
    ensures Value(base, [x] + s) == x * Power(base, |s|) + Value(base, s)
    decreases |s|
  {
    if s == [] {
      assert [x] + s == [x] && [x][..0] == [];
      assert Value(base, [x]) == Value(base, []) * base + x == x;
    } else {
      var front, last := s[..|s| - 1], s[|s| - 1];
      FirstWeighsMost(base, x, front);
      assert ([x] + s)[..|s|] == [x] + front;
      Distribute(x * Power(base, |front|), Value(base, front), base);
      Reassociate(x, Power(base, |front|), base);
      assert x * Power(base, |front|) * base == x * Power(base, |s|) by {
        assert Power(base, |s|) == Power(base, |front|) * base;
      }
    }
  }

  /** The value of a hash is that of its words, the last of which weighs most. */
  lemma HashIsPositional(w: seq<u64>)
    requires |w| == 4
    ensures HashValue(w) == Value(TWO64, [w[3], w[2], w[1], w[0]])
  {
    var s: seq<nat> := [w[3], w[2], w[1], w[0]];
    assert s[..3][..2] == [w[3], w[2]] && s[..3][..2][..1] == [w[3]] && s[..3][..2][..1][..0] == [];
    assert Value(TWO64, []) == 0;
    assert Value(TWO64, s[..3][..2][..1]) == w[3];
    assert Value(TWO64, s[..3][..2]) == w[3] * TWO64 + w[2];
    assert Value(TWO64, s[..3]) == (w[3] * TWO64 + w[2]) * TWO64 + w[1];
  }

  lemma {:induction false} ValueBound(base: nat, s: seq<nat>)
    requires AreDigits(base, s)
    ensures Value(base, s) < Power(base, |s|)
  {
    if s != [] {
      ValueBound(base, s[..|s| - 1]);
      MulBound(Value(base, s[..|s| - 1]) + 1, base, Power(base, |s| - 1), base);
      Distribute(Value(base, s[..|s| - 1]), 1, base);
    }
  }

  lemma {:induction false} ValueOfDigits(base: nat, n: nat, v: nat)
    requires base > 0 && v < Power(base, n)
    ensures Value(base, Digits(base, n, v)) == v
  {
    if n != 0 {
      QuotientBelow(v, base, Power(base, n - 1));
      ValueOfDigits(base, n - 1, v / base);
      assert Digits(base, n, v)[..n - 1] == Digits(base, n - 1, v / base);
    }
  }

  lemma {:induction false} DigitsOfValue(base: nat, s: seq<nat>)
    requires base > 0 && AreDigits(base, s)
    ensures Digits(base, |s|, Value(base, s)) == s
  {
    if s != [] {
      var front, last := s[..|s| - 1], s[|s| - 1];
      DivisionIsUnique(Value(base, s), base, Value(base, front), last);
      DigitsOfValue(base, front);
      assert s == front + [last];
    }
  }

  lemma {:induction false} DigitsOfZero(base: nat, n: nat)
    requires base > 0
    ensures Digits(base, n, 0) == seq(n, _ => 0)
  {
    if n != 0 { DigitsOfZero(base, n - 1); }
  }

  /** Reading from the least significant end: a new leading digit weighs `base` to the length read so far. */
  lemma {:induction false} LeadingDigit(base: nat, d: nat, s: seq<nat>)
    ensures Value(base, [d] + s) == d * Power(base, |s|) + Value(base, s)
  {
    var t := [d] + s;
    if s == [] {
      assert t[..0] == [];
    } else {
      var front, last := s[..|s| - 1], s[|s| - 1];
      assert t[..|t| - 1] == [d] + front;
      LeadingDigit(base, d, front);
      Distribute(d * Power(base, |front|), Value(base, front), base);
      assert (d * Power(base, |front|)) * base == d * (Power(base, |front|) * base);
    }
  }

  /** A number is at least what any of its suffixes spells. */
  lemma {:induction false} SuffixIsSmaller(base: nat, s: seq<nat>, k: nat)
    requires k <= |s|
    ensures Value(base, s[k..]) <= Value(base, s)
  {
    if k == 0 {
      assert s[0..] == s;
    } else {
      SuffixIsSmaller(base, s, k - 1);
      assert s[k - 1..] == [s[k - 1]] + s[k..];
      LeadingDigit(base, s[k - 1], s[k..]);
      MulBound(0, 0, s[k - 1], Power(base, |s[k..]|));
    }
  }
}
