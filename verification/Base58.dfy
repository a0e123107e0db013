/** The block-wise base-58 text encoding: eight bytes become eleven letters, a shorter last block becomes
    as many letters as its size calls for. */
module Base58 {
  import opened ChainTypes
  import opened WideArithmetic
  import opened Positional

  // ---------------------------------------------------------------------------------------------
  // The alphabet and the block sizes

  const ALPHABET: string := "123456789" + "ABCDEFGH" + "JKLMN" + "PQRSTUVWXYZ" + "abcdefghijk" + "mnopqrstuvwxyz"

  /** The alphabet by its runs of consecutive characters. */
  function Letter(d: nat): char
    requires d < 58
  {
    if d < 9 then ('1' as int + d) as char
    else if d < 17 then ('A' as int + (d - 9)) as char
    else if d < 22 then ('J' as int + (d - 17)) as char
    else if d < 33 then ('P' as int + (d - 22)) as char
    else if d < 44 then ('a' as int + (d - 33)) as char
    else ('m' as int + (d - 44)) as char
  }

  lemma LettersOfAlphabet(d: nat)
    requires d < 58
    ensures |ALPHABET| == 58 && Letter(d) == ALPHABET[d]
  {
    if d < 9 {
      assert "123456789"[d] == Letter(d);
    } else if d < 17 {
      assert "ABCDEFGH"[d - 9] == Letter(d);
    } else if d < 22 {
      assert "JKLMN"[d - 17] == Letter(d);
    } else if d < 33 {
      assert "PQRSTUVWXYZ"[d - 22] == Letter(d);
    } else if d < 44 {
      assert "abcdefghijk"[d - 33] == Letter(d);
    } else {
      assert "mnopqrstuvwxyz"[d - 44] == Letter(d);
    }
  }

  /** The digit a character stands for, -1 for a character outside the alphabet. */
  function DigitOf(c: char): (d: int)
    ensures d == -1 || 0 <= d < 58
  {
    if '1' <= c <= '9' then c as int - '1' as int
    else if 'A' <= c <= 'H' then c as int - 'A' as int + 9
    else if 'J' <= c <= 'N' then c as int - 'J' as int + 17
    else if 'P' <= c <= 'Z' then c as int - 'P' as int + 22
    else if 'a' <= c <= 'k' then c as int - 'a' as int + 33
    else if 'm' <= c <= 'z' then c as int - 'm' as int + 44
    else -1
  }

  /** Letters and digits are in bijection. */
  lemma LetterDigit(d: nat, c: char)
    ensures d < 58 ==> DigitOf(Letter(d)) == d
    ensures DigitOf(c) >= 0 ==> Letter(DigitOf(c)) == c
  {
  }

  /** What `reverse_alphabet` answers from its table. */
  function LookUp(table: seq<int>, c: char): int {
    var index := c as int - '1' as int;
    if 0 <= index < |table| then table[index] else -1
  }

  /** The loop that fills `reverse_alphabet`: the table answers every character. */
  method ReverseAlphabet() returns (table: seq<int>)
    ensures forall c: char :: LookUp(table, c) == DigitOf(c)
  {
    hide Letter, DigitOf;
    table := seq('z' as int - '1' as int + 1, _ => -1);
    var i := 0;
    while i < 58
      invariant 0 <= i <= 58 && |table| == 'z' as int - '1' as int + 1
      invariant forall c: char :: LookUp(table, c) == (if DigitOf(c) < i then DigitOf(c) else -1)
    {
      InTable(i);
      var index := Letter(i) as int - '1' as int;
      forall c: char ensures LookUp(table[index := i], c) == (if DigitOf(c) < i + 1 then DigitOf(c) else -1) {
        LetterDigit(i, c);
      }
      table := table[index := i];
      i := i + 1;
    }
    forall c: char ensures DigitOf(c) < 58 {
      LetterDigit(0, c);
    }
  }

  lemma InTable(d: nat)
    requires d < 58
    ensures '1' as int <= Letter(d) as int <= 'z' as int
  {
  }

  /** `encoded_block_sizes`. */
  function EncodedSize(n: nat): nat
    requires n <= 8
  {
    if n == 0 then 0 else if n < 3 then n + 1 else if n < 6 then n + 2 else n + 3
  }

  /** `decoded_block_sizes`: the inverse table, with -1 in its gaps. */
  function DecodedSize(n: nat): int
    requires n <= 11
  {
    if n == 0 then 0
    else if n == 1 || n == 4 || n == 8 then -1
    else if n < 4 then n - 1 else if n < 8 then n - 2 else n - 3
  }

  lemma FullSizes()
    ensures EncodedSize(8) == 11 && DecodedSize(11) == 8 && DecodedSize(0) == 0
  {
  }

  lemma SizeTables()
    ensures [EncodedSize(0), EncodedSize(1), EncodedSize(2), EncodedSize(3), EncodedSize(4), EncodedSize(5),
             EncodedSize(6), EncodedSize(7), EncodedSize(8)] == [0, 2, 3, 5, 6, 7, 9, 10, 11]
  {
  }

  lemma SizesInvert(n: nat)
    ensures n <= 8 ==> EncodedSize(n) <= 11 && DecodedSize(EncodedSize(n)) == n
    ensures n <= 11 && DecodedSize(n) >= 0 ==> DecodedSize(n) <= 8 && EncodedSize(DecodedSize(n)) == n
    ensures n <= 11 ==> (DecodedSize(n) < 0 <==> n in {1, 4, 8})
  {
  }

  // ---------------------------------------------------------------------------------------------
  // What a block and a text stand for

  function Letters(s: seq<nat>): (text: string)
    requires AreDigits(58, s)
    ensures |text| == |s|
  {
    seq(|s|, i requires 0 <= i < |s| => Letter(s[i]))
  }

  predicate Spelled(text: string) {
    forall i :: 0 <= i < |text| ==> DigitOf(text[i]) >= 0
  }

  function DigitsOf(text: string): (s: seq<nat>)
    requires Spelled(text)
    ensures |s| == |text| && AreDigits(58, s)
  {
    seq(|text|, i requires 0 <= i < |text| => DigitOf(text[i]))
  }

  /** The letters of one block of one to eight bytes. */
  function BlockText(block: seq<byte>): (text: string)
    requires 1 <= |block| <= 8
    ensures |text| == EncodedSize(|block|)
  {
    Letters(Digits(58, EncodedSize(|block|), Value(256, block)))
  }

  /** The bytes a block of letters stands for: none when no block has that many letters, a character is
      not a letter, or the number does not fit the bytes. */
  function BlockBytes(text: string): Option<seq<byte>>
    requires 1 <= |text| <= 11
  {
    var n := DecodedSize(|text|);
    if n <= 0 || !Spelled(text) then None
    else if Value(58, DigitsOf(text)) >= Power(256, n) then None
    else Some(Bytes(n, Value(58, DigitsOf(text))))
  }

  function Bytes(n: nat, v: nat): (b: seq<byte>)
    ensures |b| == n
  {
    Digits(256, n, v)
  }

  /** Blocks as they are spelled. */
  lemma BlockSamples()
    ensures BlockText([0x39]) == "1z" && BlockText([0xFF]) == "5Q" && BlockText([0x01, 0x00]) == "15R"
    ensures BlockText([0xFF, 0xFF]) == "LUv"
  {
    Spell([0x39], 57, [0, 57]);
    Spell([0xFF], 255, [4, 23]);
    Spell([0x01, 0x00], 256, [0, 4, 24]);
    Spell([0xFF, 0xFF], 65535, [19, 27, 53]);
  }

  lemma Spell(block: seq<byte>, v: nat, digits: seq<nat>)
    requires 1 <= |block| <= 2 && |digits| == EncodedSize(|block|) && AreDigits(58, digits)
    requires |block| == 1 ==> v == block[0] as int
    requires |block| == 2 ==> v == (block[0] as int) * 256 + block[1] as int
    requires v == if |block| == 1 then digits[0] * 58 + digits[1] else (digits[0] * 58 + digits[1]) * 58 + digits[2]
    ensures BlockText(block) == Letters(digits)
  {
    hide Letter;
    var w := Value(256, block);
    assert block[..1][..0] == [] && Value(256, block[..0]) == 0;
    assert w == v by {
      if |block| == 1 {
        assert block[..0] == [] && Value(256, block) == Value(256, []) * 256 + block[0];
      } else {
        assert Value(256, block) == Value(256, block[..1]) * 256 + block[1];
        assert Value(256, block[..1]) == Value(256, block[..1][..0]) * 256 + block[0];
      }
    }
    assert Value(58, digits) == v by {
      assert Value(58, digits[..1]) == Value(58, digits[..1][..0]) * 58 + digits[0] && digits[..1][..0] == [];
      assert digits[..2][..1] == digits[..1];
      assert Value(58, digits[..2]) == Value(58, digits[..2][..1]) * 58 + digits[1];
      if |block| == 1 { assert digits[..2] == digits; }
    }
    DigitsOfValue(58, digits);
  }

  lemma LettersDigits(s: seq<nat>)
    requires AreDigits(58, s)
    ensures Spelled(Letters(s)) && DigitsOf(Letters(s)) == s
  {
    hide Letter, DigitOf;
    var text := Letters(s);
    forall i | 0 <= i < |s| ensures DigitOf(text[i]) == s[i] {
      LetterDigit(s[i], '1');
    }
  }

  lemma DigitsLetters(text: string)
    requires Spelled(text)
    ensures Letters(DigitsOf(text)) == text
  {
    hide Letter, DigitOf;
    forall i | 0 <= i < |text| ensures Letter(DigitOf(text[i])) == text[i] {
      LetterDigit(0, text[i]);
    }
  }

  /** Every block has letters enough: the encoder never writes before its place. */
  lemma Room(n: nat)
    requires n <= 8
    ensures Power(256, n) <= Power(58, EncodedSize(n))
    ensures Power(256, n) <= TWO64 && (n == 8 ==> Power(256, n) == TWO64)
  {
    Powers256();
    Powers58();
  }

  lemma Powers58()
    ensures Power(58, 0) == 1 && Power(58, 2) == 3364 && Power(58, 3) == 195112 && Power(58, 5) == 656356768
    ensures Power(58, 6) == 38068692544 && Power(58, 7) == 2207984167552 && Power(58, 9) == 7427658739644928
    ensures Power(58, 10) == 430804206899405824 && Power(58, 11) == 24986644000165537792
  {
  }

  lemma BlockRoundTrip(block: seq<byte>)
    requires 1 <= |block| <= 8
    ensures 1 <= |BlockText(block)| <= 11 && BlockBytes(BlockText(block)) == Some(block)
  {
    hide Power, Digits, Value, Letters, DigitsOf, Spelled;
    var n, v := |block|, Value(256, block);
    SizesInvert(n);
    Room(n);
    ValueBound(256, block);
    LettersDigits(Digits(58, EncodedSize(n), v));
    ValueOfDigits(58, EncodedSize(n), v);
    DigitsOfValue(256, block);
  }

  lemma BlockIsCanonical(text: string)
    requires 1 <= |text| <= 11 && BlockBytes(text).Some?
    ensures var block := BlockBytes(text).value;
      1 <= |block| <= 8 && |block| == DecodedSize(|text|) && BlockText(block) == text
  {
    hide Power, Digits, Value, Letters, DigitsOf, Spelled;
    var n, v := DecodedSize(|text|), Value(58, DigitsOf(text));
    SizesInvert(|text|);
    ValueOfDigits(256, n, v);
    DigitsOfValue(58, DigitsOf(text));
    DigitsLetters(text);
  }

  /** The number of full blocks before the last block of `n` bytes, and of `n` letters. */
  function ByteBlocks(n: nat): (q: nat)
    requires n > 0
    ensures 8 * q < n <= 8 * q + 8
  {
    (n - 1) / 8
  }

  function LetterBlocks(n: nat): (q: nat)
    requires n > 0
    ensures 11 * q < n <= 11 * q + 11
  {
    (n - 1) / 11
  }

  function Encoded(data: seq<byte>): string {
    if data == [] then ""
    else var k := 8 * ByteBlocks(|data|); Encoded(data[..k]) + BlockText(data[k..])
  }

  function Joined(front: Option<seq<byte>>, block: Option<seq<byte>>): Option<seq<byte>> {
    if front.Some? && block.Some? then Some(front.value + block.value) else None
  }

  function Decoded(text: string): Option<seq<byte>> {
    if text == "" then Some([])
    else var k := 11 * LetterBlocks(|text|); Joined(Decoded(text[..k]), BlockBytes(text[k..]))
  }

  lemma EncodedStep(q: nat, front: seq<byte>, block: seq<byte>)
    requires |front| == 8 * q && 1 <= |block| <= 8
    ensures Encoded(front + block) == Encoded(front) + BlockText(block)
  {
    hide BlockText, ByteBlocks;
    var data := front + block;
    assert ByteBlocks(|data|) == q;
    assert data[..|front|] == front && data[|front|..] == block;
  }

  lemma DecodedStep(q: nat, front: string, block: string)
    requires |front| == 11 * q && 1 <= |block| <= 11
    ensures Decoded(front + block) == Joined(Decoded(front), BlockBytes(block))
  {
    hide BlockBytes, Joined, LetterBlocks;
    var text := front + block;
    assert LetterBlocks(|text|) == q;
    assert text[..|front|] == front && text[|front|..] == block;
  }

  lemma {:induction false} EncodedLength(q: nat, data: seq<byte>)
    requires |data| == 8 * q
    ensures |Encoded(data)| == 11 * q
  {
    hide BlockText, ByteBlocks;
    if q > 0 {
      assert ByteBlocks(|data|) == q - 1;
      EncodedLength(q - 1, data[..8 * (q - 1)]);
    }
  }

  lemma {:induction false} DecodedLength(q: nat, text: string)
    requires |text| == 11 * q && Decoded(text).Some?
    ensures |Decoded(text).value| == 8 * q
  {
    hide BlockText, BlockBytes, LetterBlocks;
    if q > 0 {
      assert LetterBlocks(|text|) == q - 1;
      DecodedLength(q - 1, text[..11 * (q - 1)]);
      BlockIsCanonical(text[11 * (q - 1)..]);
    }
  }

  /** Decoding undoes encoding, for every string of bytes. */
  lemma {:induction false} DecodeUndoesEncode(data: seq<byte>)
    ensures Decoded(Encoded(data)) == Some(data)
    decreases |data|
  {
    hide BlockBytes, BlockText, ByteBlocks, Encoded, Decoded;
    EmptyTexts();
    if data != [] {
      var q := ByteBlocks(|data|);
      var front, block := data[..8 * q], data[8 * q..];
      DecodeUndoesEncode(front);
      EncodedLength(q, front);
      BlockRoundTrip(block);
      EncodedStep(q, front, block);
      DecodedStep(q, Encoded(front), BlockText(block));
      assert front + block == data;
    }
  }

  /** A text decodes to nothing but bytes that encode to it: no two texts stand for the same bytes. */
  lemma {:induction false} EncodeUndoesDecode(text: string)
    requires Decoded(text).Some?
    ensures Encoded(Decoded(text).value) == text
    decreases |text|
  {
    hide BlockBytes, BlockText, LetterBlocks, Encoded, Decoded;
    EmptyTexts();
    if text != "" {
      var q := LetterBlocks(|text|);
      var front, block := text[..11 * q], text[11 * q..];
      assert front + block == text;
      DecodedStep(q, front, block);
      EncodeUndoesDecode(front);
      DecodedLength(q, front);
      BlockIsCanonical(block);
      EncodedStep(q, Decoded(front).value, BlockBytes(block).value);
    }
  }

  /** A bad leading block spoils the whole text. */
  lemma {:induction false} FailureSpreads(q: nat, text: string)
    requires 11 * q <= |text| && Decoded(text[..11 * q]) == None
    ensures Decoded(text) == None
    decreases |text|
  {
    hide BlockBytes, LetterBlocks;
    if 11 * q == |text| {
      assert text[..11 * q] == text;
    } else {
      var m := 11 * LetterBlocks(|text|);
      assert text[..m][..11 * q] == text[..11 * q];
      FailureSpreads(q, text[..m]);
    }
  }

  // ---------------------------------------------------------------------------------------------
  // The code

  /** `encode_block`: fills its part of a string of '1's, from the right, and stops at zero. */
  method EncodeBlock(block: seq<byte>, res: array<char>, offset: nat)
    requires 1 <= |block| <= 8 && offset + EncodedSize(|block|) <= res.Length
    requires forall j :: offset <= j < offset + EncodedSize(|block|) ==> res[j] == '1'
    modifies res
    ensures res[..] == old(res[..offset]) + BlockText(block) + old(res[offset + EncodedSize(|block|)..])
  {
    hide Power, Digits, Value, Letter, Letters, EncodedSize, AreDigits, Ones;
    var size := EncodedSize(|block|);
    var num: nat := Value(256, block);
    ValueBound(256, block);
    Room(|block|);
    var i: int := size as int - 1;
    ghost var v := num;
    ghost var low: seq<nat> := [];
    ghost var before, behind := res[..offset], res[offset + size..];
    StartLetters(res[..], offset, size, v);
    while 0 < num
      invariant -1 <= i < size && num < Power(58, i + 1)
      invariant AreDigits(58, low)
      invariant Digits(58, size, v) == Digits(58, i + 1, num) + low
      invariant res[..] == before + Ones(i + 1) + Letters(low) + behind
      decreases num
    {
      NextLetter(i + 1, num, low);
      var remainder := num % 58;
      num := num / 58;
      PutLetter(before, i, Letters(low), behind, Letter(remainder));
      ghost var text := res[..];
      res[offset + i] := Letter(remainder);
      assert res[..] == text[offset + i := Letter(remainder)];
      low := [remainder] + low;
      i := i - 1;
    }
    PadWithOnes(i + 1, low);
    assert before + Ones(i + 1) + Letters(low) == before + (Ones(i + 1) + Letters(low));
  }

  function Ones(n: nat): (s: string)
    ensures |s| == n
  {
    seq(n, _ => '1')
  }

  lemma StartLetters(text: string, offset: nat, size: nat, v: nat)
    requires offset + size <= |text|
    requires forall j :: offset <= j < offset + size ==> text[j] == '1'
    ensures text == text[..offset] + Ones(size) + Letters([]) + text[offset + size..]
    ensures AreDigits(58, []) && Digits(58, size, v) == Digits(58, size, v) + []
  {
    hide Digits;
    assert text[offset..offset + size] == Ones(size);
  }

  lemma PutLetter(before: string, n: nat, tail: string, behind: string, c: char)
    ensures (before + Ones(n + 1) + tail + behind)[|before| + n := c] == before + Ones(n) + ([c] + tail) + behind
  {
  }

  lemma NextLetter(n: nat, num: nat, low: seq<nat>)
    requires 0 < num < Power(58, n) && AreDigits(58, low)
    ensures n > 0 && num / 58 < Power(58, n - 1) && 0 <= num % 58 < 58
    ensures Digits(58, n, num) + low == Digits(58, n - 1, num / 58) + ([num % 58] + low)
    ensures AreDigits(58, [num % 58] + low)
    ensures Letters([num % 58] + low) == [Letter(num % 58)] + Letters(low)
  {
    QuotientBelow(num, 58, Power(58, n - 1));
  }

  lemma PadWithOnes(n: nat, low: seq<nat>)
    requires AreDigits(58, low)
    ensures AreDigits(58, Digits(58, n, 0) + low)
    ensures Letters(Digits(58, n, 0) + low) == Ones(n) + Letters(low)
  {
    DigitsOfZero(58, n);
  }

  /** `decode_block`: the letters from the right, with 64-bit arithmetic and an overflow test at each.
      It answers exactly what the block stands for; a rejected block writes nothing. */
  method DecodeBlock(block: string, res: array<byte>, offset: nat) returns (ok: bool)
    requires 1 <= |block| <= 11 && (DecodedSize(|block|) > 0 ==> offset + DecodedSize(|block|) <= res.Length)
    modifies res
    ensures ok <==> BlockBytes(block).Some?
    ensures !ok ==> res[..] == old(res[..])
    ensures ok ==> Stored(old(res[..]), offset, BlockBytes(block).value, res[..])
  {
    hide Power, Digits, Value, DigitOf, DigitsOf, Spelled, Wrap64, Stored, AreDigits;
    var n := DecodedSize(|block|);
    if n <= 0 { return false; }
    SizesInvert(|block|);
    var resNum: u64, order: u64 := 0, 1;
    var i: int := |block|;
    StartDigits(block);
    while i > 0
      invariant 0 <= i <= |block|
      invariant Read(block, i, resNum) && order == Wrap64(Power(58, |block| - i))
      invariant res[..] == old(res[..])
    {
      i := i - 1;
      var digit := DigitOf(block[i]);
      if digit < 0 {
        NotSpelled(block, i);
        return false;
      }
      NextDigit(block, i, resNum);
      OrderFits(|block| - 1 - i);
      var low, high := Mul128(order, digit);
      SumFits(resNum, low, high);
      var tmp := Wrap64(resNum + low);
      if tmp < resNum || 0 != high {
        TooLarge(block, i);
        return false;
      }
      resNum := tmp;
      order := Wrap64(order * 58);
    }
    WholeBlock(block, resNum);
    Room(n);
    if n < 8 && Power(256, n) <= resNum { return false; }
    Store(Bytes(n, resNum), res, offset);
    return true;
  }

  /** `memcpy` of a block into its place. */
  method Store(bytes: seq<byte>, res: array<byte>, offset: nat)
    requires offset + |bytes| <= res.Length
    modifies res
    ensures Stored(old(res[..]), offset, bytes, res[..])
  {
    forall j | 0 <= j < |bytes| {
      res[offset + j] := bytes[j];
    }
  }

  ghost predicate Stored(before: seq<byte>, offset: nat, bytes: seq<byte>, after: seq<byte>) {
    && offset + |bytes| <= |before| == |after|
    && after[..offset] == before[..offset] && after[offset..offset + |bytes|] == bytes
    && after[offset + |bytes|..] == before[offset + |bytes|..]
  }

  /** The letters from `i` on are good and spell `v`. */
  ghost predicate Read(block: string, i: nat, v: nat) {
    i <= |block| && Spelled(block[i..]) && Value(58, DigitsOf(block[i..])) == v
  }

  lemma StartDigits(block: string)
    ensures Read(block, |block|, 0) && Wrap64(Power(58, 0)) == 1
  {
  }

  lemma NotSpelled(block: string, i: nat)
    requires i < |block| && DigitOf(block[i]) < 0
    ensures !Spelled(block)
  {
  }

  lemma NextDigit(block: string, i: nat, v: nat)
    requires i < |block| && DigitOf(block[i]) >= 0 && Read(block, i + 1, v)
    ensures Read(block, i, DigitOf(block[i]) * Power(58, |block| - 1 - i) + v)
  {
    hide Power, Value, DigitOf;
    var rest := block[i + 1..];
    assert block[i..] == [block[i]] + rest;
    assert DigitsOf(block[i..]) == [DigitOf(block[i])] + DigitsOf(rest);
    LeadingDigit(58, DigitOf(block[i]), DigitsOf(rest));
  }

  lemma OrderFits(k: nat)
    requires k <= 10
    ensures Power(58, k) < TWO64 && Wrap64(Power(58, k)) == Power(58, k)
    ensures Power(58, k + 1) == Power(58, k) * 58
  {
    PowerGrows(58, k, 10);
    Powers58();
  }

  /** The test after the addition is exact. */
  lemma SumFits(resNum: u64, low: u64, high: u64)
    ensures Wrap64(resNum + low) < resNum || high != 0 <==> high * TWO64 + low + resNum >= TWO64
    ensures high == 0 && Wrap64(resNum + low) >= resNum ==> Wrap64(resNum + low) == resNum + low
  {
  }

  lemma TooLarge(block: string, i: nat)
    requires i <= |block| && 1 <= |block| <= 11 && DecodedSize(|block|) > 0
    requires Spelled(block[i..]) && Value(58, DigitsOf(block[i..])) >= TWO64
    ensures BlockBytes(block) == None
  {
    hide Power, Value, DigitOf, DecodedSize;
    SizesInvert(|block|);
    Room(DecodedSize(|block|));
    if Spelled(block) {
      assert DigitsOf(block)[i..] == DigitsOf(block[i..]);
      SuffixIsSmaller(58, DigitsOf(block), i);
    }
  }

  lemma WholeBlock(block: string, v: nat)
    requires Read(block, 0, v)
    ensures Spelled(block) && Value(58, DigitsOf(block)) == v
  {
    assert block[0..] == block;
  }

  /** The `m` bytes behind the first `i` blocks are the next block of the text. */
  lemma EncodePiece(data: seq<byte>, i: nat, m: nat)
    requires 8 * i + m <= |data| && 1 <= m <= 8
    ensures |Encoded(data[..8 * i])| == 11 * i
    ensures Encoded(data[..8 * i + m]) == Encoded(data[..8 * i]) + BlockText(data[8 * i..8 * i + m])
  {
    hide BlockText, Encoded;
    var front, block := data[..8 * i], data[8 * i..8 * i + m];
    EncodedLength(i, front);
    EncodedStep(i, front, block);
    assert front + block == data[..8 * i + m];
  }

  lemma DecodePiece(text: string, i: nat, m: nat)
    requires 11 * i + m <= |text| && 1 <= m <= 11
    ensures Decoded(text[..11 * i + m]) == Joined(Decoded(text[..11 * i]), BlockBytes(text[11 * i..11 * i + m]))
  {
    hide BlockBytes, Decoded, Joined;
    var front, block := text[..11 * i], text[11 * i..11 * i + m];
    DecodedStep(i, front, block);
    assert front + block == text[..11 * i + m];
  }

  /** The first `k` bytes are encoded, and behind their letters there are only '1's. */
  ghost predicate EncodedUpTo(data: seq<byte>, k: nat, text: string) {
    k <= |data| && |Encoded(data[..k])| <= |text| && text == Encoded(data[..k]) + Ones(|text| - |Encoded(data[..k])|)
  }

  lemma PieceEncoded(data: seq<byte>, i: nat, m: nat, before: string)
    requires EncodedUpTo(data, 8 * i, before) && 8 * i + m <= |data| && 1 <= m <= 8
    requires 11 * i + EncodedSize(m) <= |before|
    ensures forall j :: 11 * i <= j < 11 * i + EncodedSize(m) ==> before[j] == '1'
    ensures EncodedUpTo(data, 8 * i + m,
                        before[..11 * i] + BlockText(data[8 * i..8 * i + m]) + before[11 * i + EncodedSize(m)..])
  {
    hide BlockText, Encoded, EncodedSize, Ones;
    EncodePiece(data, i, m);
    SplitOnes(Encoded(data[..8 * i]), EncodedSize(m), |before| - 11 * i);
  }

  /** The loop of `encode` over the full blocks. */
  method EncodeBlocks(data: seq<byte>, full: nat, res: array<char>)
    requires 8 * full <= |data| && 11 * full <= res.Length && EncodedUpTo(data, 0, res[..])
    modifies res
    ensures EncodedUpTo(data, 8 * full, res[..])
  {
    hide BlockText, EncodedUpTo, EncodedSize;
    FullSizes();
    var i := 0;
    while i < full
      invariant 0 <= i <= full
      invariant EncodedUpTo(data, 8 * i, res[..])
    {
      PieceEncoded(data, i, 8, res[..]);
      EncodeBlock(data[8 * i..8 * i + 8], res, 11 * i);
      i := i + 1;
    }
  }

  /** `encode`. */
  method Encode(data: seq<byte>) returns (text: string)
    ensures text == Encoded(data)
  {
    hide BlockText, Encoded, EncodedUpTo, EncodedSize;
    EmptyTexts();
    if data == [] { return ""; }
    var full, last := |data| / 8, |data| % 8;
    var size := full * 11 + EncodedSize(last);
    var res := new char[size](_ => '1');
    StartEncoding(data, res[..]);
    EncodeBlocks(data, full, res);
    if 0 < last {
      PieceEncoded(data, full, last, res[..]);
      EncodeBlock(data[8 * full..8 * full + last], res, 11 * full);
    }
    DoneEncoding(data, full, last, res[..]);
    return res[..];
  }

  lemma StartEncoding(data: seq<byte>, text: string)
    requires forall j :: 0 <= j < |text| ==> text[j] == '1'
    ensures EncodedUpTo(data, 0, text)
  {
    EmptyTexts();
    assert text == Ones(|text|);
  }

  lemma DoneEncoding(data: seq<byte>, full: nat, last: nat, text: string)
    requires last < 8 && |data| == 8 * full + last && |text| == 11 * full + EncodedSize(last)
    requires EncodedUpTo(data, |data|, text)
    ensures text == Encoded(data)
  {
    hide BlockText, Encoded;
    assert data[..|data|] == data;
    if last > 0 { EncodePiece(data, full, last); } else { EncodedLength(full, data); }
    assert |Encoded(data)| == |text|;
  }

  lemma SplitOnes(front: string, n: nat, m: nat)
    requires n <= m
    ensures var text := front + Ones(m);
      && text[..|front|] == front && text[|front| + n..] == Ones(m - n)
      && forall j :: |front| <= j < |front| + n ==> text[j] == '1'
  {
  }

  lemma EmptyTexts()
    ensures Encoded([]) == "" && Decoded("") == Some([])
  {
  }

  function Piece(text: string, k: nat, m: nat): (block: string)
    requires k + m <= |text|
    ensures |block| == m
  {
    text[k..k + m]
  }

  /** The first `k` letters are decoded, into the first `n` bytes. */
  ghost predicate DecodedUpTo(text: string, k: nat, res: seq<byte>, n: nat) {
    k <= |text| && n <= |res| && Decoded(text[..k]) == Some(res[..n])
  }

  lemma StartDecoding(text: string, res: seq<byte>)
    ensures DecodedUpTo(text, 0, res, 0)
  {
    EmptyTexts();
  }

  lemma NextBlock(text: string, i: nat, m: nat, before: seq<byte>, after: seq<byte>)
    requires DecodedUpTo(text, 11 * i, before, 8 * i) && 1 <= m <= 11 && 11 * i + m <= |text|
    requires BlockBytes(Piece(text, 11 * i, m)).Some?
    requires Stored(before, 8 * i, BlockBytes(Piece(text, 11 * i, m)).value, after)
    ensures DecodedSize(m) >= 0 && DecodedUpTo(text, 11 * i + m, after, 8 * i + DecodedSize(m))
  {
    hide BlockBytes, Decoded, DecodedSize, Stored;
    DecodePiece(text, i, m);
    StoredBehind(before, 8 * i, Piece(text, 11 * i, m), after);
  }

  lemma BadBlock(text: string, i: nat, m: nat)
    requires 11 * i + m <= |text| && 1 <= m <= 11 && BlockBytes(Piece(text, 11 * i, m)) == None
    requires m == 11 || 11 * i + m == |text|
    ensures Decoded(text) == None
  {
    hide BlockBytes, Decoded;
    DecodePiece(text, i, m);
    if m == 11 {
      FailureSpreads(i + 1, text);
    } else {
      assert text[..11 * i + m] == text;
    }
  }

  lemma DoneDecoding(text: string, res: seq<byte>)
    requires DecodedUpTo(text, |text|, res, |res|)
    ensures Decoded(text) == Some(res)
  {
    assert text[..|text|] == text && res[..|res|] == res;
  }

  /** One block of `decode`: a full one, or the last, shorter one when there is one. */
  method DecodeNext(text: string, i: nat, m: nat, res: array<byte>) returns (ok: bool)
    requires m <= 11 && 11 * i + m <= |text| && (m == 11 || 11 * i + m == |text|)
    requires DecodedSize(m) >= 0 && 8 * i + DecodedSize(m) <= res.Length
    requires DecodedUpTo(text, 11 * i, res[..], 8 * i)
    modifies res
    ensures ok ==> DecodedUpTo(text, 11 * i + m, res[..], 8 * i + DecodedSize(m))
    ensures !ok ==> Decoded(text) == None
  {
    hide BlockBytes, Decoded, DecodedSize, Stored, DecodedUpTo, Piece;
    FullSizes();
    if m == 0 { return true; }
    ghost var before := res[..];
    ok := DecodeBlock(Piece(text, 11 * i, m), res, 8 * i);
    if ok {
      NextBlock(text, i, m, before, res[..]);
    } else {
      BadBlock(text, i, m);
    }
  }

  /** The loop of `decode` over the full blocks. */
  method DecodeBlocks(text: string, full: nat, res: array<byte>) returns (ok: bool)
    requires 11 * full <= |text| && 8 * full <= res.Length
    modifies res
    ensures ok ==> DecodedUpTo(text, 11 * full, res[..], 8 * full)
    ensures !ok ==> Decoded(text) == None
  {
    hide Decoded, DecodedSize, DecodedUpTo;
    FullSizes();
    StartDecoding(text, res[..]);
    var i := 0;
    while i < full
      invariant 0 <= i <= full
      invariant DecodedUpTo(text, 11 * i, res[..], 8 * i)
    {
      ok := DecodeNext(text, i, 11, res);
      if !ok { return; }
      i := i + 1;
    }
    ok := true;
  }

  /** `decode`. */
  method Decode(text: string) returns (data: Option<seq<byte>>)
    ensures data == Decoded(text)
  {
    hide BlockBytes, Decoded, DecodedSize, DecodedUpTo, Piece;
    FullSizes();
    EmptyTexts();
    if text == "" { return Some([]); }
    var full, last := |text| / 11, |text| % 11;
    if DecodedSize(last) < 0 {
      BadSize(Piece(text, 11 * full, last));
      BadBlock(text, full, last);
      return None;
    }
    var res := new byte[full * 8 + DecodedSize(last)](_ => 0);
    var ok := DecodeBlocks(text, full, res);
    if !ok { return None; }
    ok := DecodeNext(text, full, last, res);
    if !ok { return None; }
    DoneDecoding(text, res[..]);
    return Some(res[..]);
  }

  lemma StoredBehind(before: seq<byte>, offset: nat, block: string, after: seq<byte>)
    requires 1 <= |block| <= 11 && BlockBytes(block).Some?
    requires Stored(before, offset, BlockBytes(block).value, after)
    ensures 0 <= DecodedSize(|block|) && offset + DecodedSize(|block|) <= |before| == |after|
    ensures after[..offset + DecodedSize(|block|)] == before[..offset] + BlockBytes(block).value
  {
    hide BlockText, BlockBytes, DecodedSize;
    BlockIsCanonical(block);
  }

  lemma BadSize(block: string)
    requires 1 <= |block| <= 11 && DecodedSize(|block|) < 0
    ensures BlockBytes(block) == None
  {
  }
}
