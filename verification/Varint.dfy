/** Variable-length integers: seven bits a byte, least significant first, the high bit set on all but the last. */
module VarintCodec {
  import opened ChainTypes
  import opened WideArithmetic
  import opened Positional

  function Varint(n: nat): (s: seq<byte>)
    ensures |s| > 0
  {
    if n < 128 then [n] else [n % 128 + 128] + Varint(n / 128)
  }

  /** What `read_varint` finds: a number and how many bytes it took, or why it gave up.
      `complete` is false when the input ended before a byte without the high bit. */
  datatype Outcome = Read(count: nat, value: nat, complete: bool) | Overflow | NonCanonical

  /** How far a number may reach when its first byte is shifted by `7 * k` bits. */
  function Limit(k: nat): nat
    requires k <= 9
  {
    Power(2, 64 - 7 * k)
  }

  lemma Limits(k: nat)
    requires k <= 9
    ensures k == 9 ==> Limit(k) == 2
    ensures k < 9 ==> Limit(k) == Limit(k + 1) * 128 && Limit(k + 1) >= 2
    ensures k < 9 ==> Limit(k) >= 256
    decreases 9 - k
  {
    if k < 9 {
      SevenBits(64 - 7 * (k + 1));
      Limits(k + 1);
    }
  }

  lemma SevenBits(m: nat)
    ensures Power(2, m + 7) == Power(2, m) * 128
  {
    assert Power(2, m + 7) == Power(2, m + 6) * 2 && Power(2, m + 6) == Power(2, m + 5) * 2;
    assert Power(2, m + 5) == Power(2, m + 4) * 2 && Power(2, m + 4) == Power(2, m + 3) * 2;
    assert Power(2, m + 3) == Power(2, m + 2) * 2 && Power(2, m + 2) == Power(2, m + 1) * 2;
  }

  lemma WholeRange()
    ensures Limit(0) == TWO64
  {
    hide Limit;
    Limits(0);
    Limits(1);
    Limits(2);
    Limits(3);
    Limits(4);
    Limits(5);
    Limits(6);
    Limits(7);
    Limits(8);
    Limits(9);
  }

  /** The number at the front of `s`, when `k` bytes have been read before. */
  function ReadFrom(s: seq<byte>, k: nat): (r: Outcome)
    requires k <= 9
    ensures r.Read? ==> r.count <= |s|
    decreases |s|
  {
    if s == [] then Read(0, 0, false)
    else if 7 * k + 7 >= 64 && s[0] >= Limit(k) then Overflow
    else if s[0] == 0 && k != 0 then NonCanonical
    else if s[0] < 128 then Read(1, s[0], true)
    else
      Limits(k);
      match ReadFrom(s[1..], k + 1)
      case Read(count, value, complete) => Read(count + 1, s[0] - 128 + 128 * value, complete)
      case failure => failure
  }

  /** Reading finds what was written, whatever follows it. */
  lemma {:induction false} ReadUndoesWrite(n: nat, rest: seq<byte>, k: nat)
    requires k <= 9 && n < Limit(k) && (k > 0 ==> n > 0)
    ensures ReadFrom(Varint(n) + rest, k) == Read(|Varint(n)|, n, true)
    decreases n
  {
    hide Limit;
    Limits(k);
    if n >= 128 {
      ReadUndoesWrite(n / 128, rest, k + 1);
      assert (Varint(n) + rest)[1..] == Varint(n / 128) + rest;
    }
  }

  /** What was read completely is the only way to write that number; an incomplete one took every byte. */
  lemma {:induction false} WriteUndoesRead(s: seq<byte>, k: nat)
    requires k <= 9 && ReadFrom(s, k).Read?
    ensures var r := ReadFrom(s, k);
      && r.value < Limit(k)
      && (r.complete ==> Varint(r.value) == s[..r.count] && (k > 0 ==> r.value > 0) && r.count > 0 && s[r.count - 1] < 128)
      && (!r.complete ==> r.count == |s| && forall i :: 0 <= i < |s| ==> s[i] >= 128)
    decreases |s|
  {
    hide Limit;
    Limits(k);
    if s != [] && s[0] >= 128 {
      WriteUndoesRead(s[1..], k + 1);
      var r, r' := ReadFrom(s, k), ReadFrom(s[1..], k + 1);
      assert r.count == r'.count + 1 && s[..r.count] == [s[0]] + s[1..][..r'.count];
      if !r.complete {
        forall i | 0 <= i < |s| ensures s[i] >= 128 {
          if i > 0 { assert s[i] == s[1..][i - 1]; }
        }
      }
    }
  }

  lemma {:induction false} VarintEnds(n: nat)
    ensures Varint(n)[|Varint(n)| - 1] < 128
  {
    if n >= 128 { VarintEnds(n / 128); }
  }

  /** The seven-bit groups of the bytes, the last one first. */
  function Groups(s: seq<byte>): (r: seq<nat>)
    ensures |r| == |s| && forall i | 0 <= i < |s| :: r[i] == s[|s| - 1 - i] % 128
  {
    seq(|s|, i requires 0 <= i < |s| => s[|s| - 1 - i] % 128)
  }

  lemma GroupsNext(first: byte, rest: seq<byte>)
    ensures Groups([first] + rest) == Groups(rest) + [first % 128]
    ensures Value(128, Groups([first] + rest)) == Value(128, Groups(rest)) * 128 + first % 128
  {
    assert Groups([first] + rest) == Groups(rest) + [first % 128];
    assert (Groups(rest) + [first % 128])[..|rest|] == Groups(rest);
  }

  /** What is written: the number in base 128, lowest group first, without leading zeros, and the high bit set on all
      but the last byte. */
  lemma {:induction false} VarintSpells(n: nat)
    ensures var s := Varint(n);
      && Value(128, Groups(s)) == n
      && (forall i | 0 <= i < |s| :: s[i] >= 128 <==> i < |s| - 1)
      && (|s| > 1 ==> s[|s| - 1] != 0)
    decreases n
  {
    hide Groups, Value;
    if n < 128 {
      assert Varint(n) == [n] + [];
      GroupsNext(n, []);
      NoGroups();
    } else {
      VarintSpells(n / 128);
      var first, rest := n % 128 + 128, Varint(n / 128);
      assert Varint(n) == [first] + rest;
      GroupsNext(first, rest);
    }
  }

  lemma NoGroups()
    ensures Value(128, Groups([])) == 0
  {
  }

  /** The first `i` bytes have their high bit set. */
  predicate Continued(s: seq<byte>, i: nat) {
    i <= |s| && forall j | 0 <= j < i :: s[j] >= 128
  }

  lemma ContinuedNext(s: seq<byte>, i: nat)
    requires s != []
    ensures Continued(s, i + 1) <==> s[0] >= 128 && Continued(s[1..], i)
  {
    if s[0] >= 128 && Continued(s[1..], i) {
      forall j | 0 <= j < i + 1 ensures s[j] >= 128 {
        if j > 0 { assert s[j] == s[1..][j - 1]; }
      }
    }
    if Continued(s, i + 1) {
      forall j | 0 <= j < i ensures s[1..][j] >= 128 { assert s[1..][j] == s[j + 1]; }
    }
  }

  /** `read_varint` finds an overflow if and only if a tenth byte follows that has more than its lowest bit; and a
      number that is not canonical if and only if, before that, a byte other than the first is zero. `k` bytes were
      read before. */
  lemma {:induction false} ReadFails(s: seq<byte>, k: nat)
    requires k <= 9
    ensures ReadFrom(s, k).Overflow? <==> Continued(s, 9 - k) && |s| > 9 - k && s[9 - k] >= 2
    ensures ReadFrom(s, k).NonCanonical? <==>
              exists i: nat :: Continued(s, i) && i < |s| && s[i] == 0 && 1 <= k + i <= 9
    decreases |s|
  {
    hide Limit;
    Limits(k);
    if s != [] {
      if s[0] >= 128 && k < 9 {
        ReadFails(s[1..], k + 1);
        ContinuedNext(s, 8 - k);
        if i: nat :| Continued(s, i) && i < |s| && s[i] == 0 && 1 <= k + i <= 9 {
          ContinuedNext(s, i - 1);
          assert s[1..][i - 1] == s[i];
        }
        if i: nat :| Continued(s[1..], i) && i < |s[1..]| && s[1..][i] == 0 && 1 <= k + 1 + i <= 9 {
          ContinuedNext(s, i);
          assert s[i + 1] == s[1..][i];
        }
      } else {
        assert Continued(s, 0);
        if i: nat :| Continued(s, i) && i < |s| && s[i] == 0 && 1 <= k + i <= 9 {
          assert i == 0;
        }
      }
    }
  }

  /** `write_varint`. */
  method WriteVarint(n: u64) returns (s: seq<byte>)
    ensures s == Varint(n)
  {
    hide Varint;
    var i := n;
    s := [];
    while i >= 128
      invariant 0 <= i <= n && Varint(n) == s + Varint(i)
    {
      OneMoreByte(s, i);
      s := s + [i % 128 + 128];
      i := i / 128;
    }
    OneMoreByte(s, i);
    s := s + [i];
  }

  lemma OneMoreByte(s: seq<byte>, i: nat)
    ensures i < 128 ==> s + Varint(i) == s + [i]
    ensures i >= 128 ==> s + Varint(i) == s + [i % 128 + 128] + Varint(i / 128)
  {
  }

  /** The answers of `read_varint` as the number it returns. */
  function Answer(r: Outcome): int {
    match r
    case Read(count, _, _) => count
    case Overflow => -1
    case NonCanonical => -2
  }

  /** `k` bytes that gave `i`, then what the rest gives. */
  function Behind(k: nat, i: nat, r: Outcome): Outcome {
    match r
    case Read(count, value, complete) => Read(k + count, i + Power(128, k) * value, complete)
    case failure => failure
  }

  /** `read_varint` for 64 bits. */
  method ReadVarint(s: seq<byte>) returns (read: int, i: u64)
    ensures read == Answer(ReadFrom(s, 0))
    ensures match ReadFrom(s, 0)
      case Read(count, value, _) => read == count && i == value
      case Overflow => read == -1
      case NonCanonical => read == -2
  {
    hide Limit, Power, ReadFrom, Behind;
    read, i := 0, 0;
    StartReading(s);
    while true
      invariant 0 <= read <= 9 && read <= |s| && i < Power(128, read)
      invariant ReadFrom(s, 0) == Behind(read, i, ReadFrom(s[read..], read))
      decreases |s| - read
    {
      NextByte(s, read, i);
      if read == |s| { return; }
      var byte := s[read];
      if 7 * read + 7 >= 64 && byte >= Limit(read) { return -1, i; }
      if byte == 0 && read != 0 { return -2, i; }
      i := i + (byte % 128) * Power(128, read);
      read := read + 1;
      if byte < 128 { return; }
    }
  }

  lemma StartReading(s: seq<byte>)
    ensures Power(128, 0) == 1 && ReadFrom(s, 0) == Behind(0, 0, ReadFrom(s[0..], 0))
  {
    assert s[0..] == s;
  }

  /** A byte that passes the overflow test adds its seven bits above `i` without leaving 64 bits. */
  lemma ByteFits(k: nat, b: byte, i: nat)
    requires k <= 9 && i < Power(128, k) && (7 * k + 7 >= 64 ==> b < Limit(k))
    ensures i + (b % 128) * Power(128, k) < TWO64
    ensures b >= 128 ==> k < 9 && i + (b % 128) * Power(128, k) < Power(128, k + 1)
  {
    hide Limit;
    Limits(k);
    assert Power(128, 9) == 0x8000_0000_0000_0000;
    if k < 9 {
      PowerGrows(128, k + 1, 9);
      MulBound(b % 128, Power(128, k), 127, Power(128, k));
    }
  }

  lemma BehindByte(k: nat, i: nat, x: nat, r: Outcome)
    requires r.Read?
    ensures Behind(k, i, Read(r.count + 1, x + 128 * r.value, r.complete)) == Behind(k + 1, i + x * Power(128, k), r)
  {
    var p, v := Power(128, k), r.value;
    Distribute(x, 128 * v, p);
    assert p * (x + 128 * v) == x * p + (p * 128) * v by { Reassociate(128, v, p); }
  }

  lemma NextByte(s: seq<byte>, k: nat, i: nat)
    requires k <= 9 && k <= |s| && i < Power(128, k)
    ensures var r := Behind(k, i, ReadFrom(s[k..], k));
      if k == |s| then r == Read(k, i, false)
      else if 7 * k + 7 >= 64 && s[k] >= Limit(k) then r == Overflow
      else if s[k] == 0 && k != 0 then r == NonCanonical
      else
        var i' := i + (s[k] % 128) * Power(128, k);
        && i' < TWO64 && (s[k] < 128 ==> r == Read(k + 1, i', true))
        && (s[k] >= 128 ==> k < 9 && i' < Power(128, k + 1) && r == Behind(k + 1, i', ReadFrom(s[k + 1..], k + 1)))
  {
    hide Limit, Power, ReadFrom;
    if k < |s| {
      assert s[k..][0] == s[k] && s[k..][1..] == s[k + 1..];
    }
    OneByte(s[k..], k);
    if k < |s| && !(7 * k + 7 >= 64 && s[k] >= Limit(k)) {
      ByteFits(k, s[k], i);
      if s[k] >= 128 {
        var r := ReadFrom(s[k + 1..], k + 1);
        if r.Read? { BehindByte(k, i, s[k] % 128, r); }
      }
    }
  }

  lemma OneByte(t: seq<byte>, k: nat)
    requires k <= 9
    ensures ReadFrom(t, k) ==
            if t == [] then Read(0, 0, false)
            else if 7 * k + 7 >= 64 && t[0] >= Limit(k) then Overflow
            else if t[0] == 0 && k != 0 then NonCanonical
            else if t[0] < 128 || k == 9 then Read(1, t[0], true)
            else match ReadFrom(t[1..], k + 1)
              case Read(count, value, complete) => Read(count + 1, t[0] % 128 + 128 * value, complete)
              case failure => failure
  {
    hide Limit;
    Limits(k);
  }
}
