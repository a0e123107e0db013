/** The bytes of a file that holds a vector: a prefix, the capacity, the size, the elements and the spare
    room behind them, and a suffix. */
module FileLayout {
  import opened ChainTypes
  import opened WideArithmetic
  import opened Positional

  const METADATA_SIZE := 16

  /** A file by its regions; `data` is the room of all `capacity` elements. */
  datatype Image = Image(prefix: seq<byte>, capacity: nat, size: nat, data: seq<byte>, suffix: seq<byte>)

  /** A 64-bit word in memory. The order of its bytes does not matter here, as it is read as it was written. */
  function Word(v: nat): (w: seq<byte>)
    ensures |w| == 8
  {
    Digits(256, 8, v)
  }

  lemma WordRoundTrip(v: nat, w: seq<byte>)
    ensures v < TWO64 ==> Value(256, Word(v)) == v
    ensures |w| == 8 ==> Value(256, w) < TWO64 && Word(Value(256, w)) == w
  {
    hide Digits, Value, Power;
    Powers256();
    if v < TWO64 { ValueOfDigits(256, 8, v); }
    if |w| == 8 {
      ValueBound(256, w);
      DigitsOfValue(256, w);
    }
  }

  function Bytes(i: Image): seq<byte> {
    i.prefix + Word(i.capacity) + Word(i.size) + i.data + i.suffix
  }

  /** The room that `n` elements take. */
  function Room(n: nat, valueSize: nat): nat {
    n * valueSize
  }

  lemma RoomNext(n: nat, valueSize: nat)
    ensures Room(0, valueSize) == 0 && Room(n + 1, valueSize) == Room(n, valueSize) + valueSize
  {
    Distribute(n, 1, valueSize);
  }

  lemma RoomGrows(n: nat, m: nat, valueSize: nat)
    ensures n <= m ==> Room(n, valueSize) <= Room(m, valueSize)
    ensures Room(n + m, valueSize) == Room(n, valueSize) + Room(m, valueSize)
  {
    if n <= m { MulBound(n, valueSize, m, valueSize); }
    Distribute(n, m, valueSize);
  }

  ghost predicate Proper(i: Image, valueSize: nat) {
    i.size <= i.capacity < TWO64 && |i.data| == Room(i.capacity, valueSize)
  }

  /** What `open` finds in the file, with its three reasons to refuse it. */
  function Load(file: seq<byte>, prefixSize: nat, valueSize: nat): Option<Image> {
    var start := prefixSize + METADATA_SIZE;
    if |file| < start then None
    else
      var capacity := Value(256, file[prefixSize..prefixSize + 8]);
      var size := Value(256, file[prefixSize + 8..start]);
      if size > capacity then None
      else if |file| < start + Room(capacity, valueSize) then None
      else Some(Image(file[..prefixSize], capacity, size, file[start..start + Room(capacity, valueSize)],
                      file[start + Room(capacity, valueSize)..]))
  }

  /** `open` accepts exactly the files that are laid out this way, and finds what was laid out. */
  lemma LoadIsLayout(file: seq<byte>, prefixSize: nat, valueSize: nat, i: Image)
    ensures Load(file, prefixSize, valueSize) == Some(i)
       <==> Proper(i, valueSize) && |i.prefix| == prefixSize && Bytes(i) == file
  {
    if Proper(i, valueSize) && |i.prefix| == prefixSize && Bytes(i) == file {
      LoadBytes(i, valueSize);
    }
    if Load(file, prefixSize, valueSize) == Some(i) {
      BytesLoad(file, prefixSize, valueSize);
    }
  }

  lemma LoadBytes(i: Image, valueSize: nat)
    requires Proper(i, valueSize)
    ensures Load(Bytes(i), |i.prefix|, valueSize) == Some(i)
  {
    hide Word, Value, Room;
    WordRoundTrip(i.capacity, []);
    WordRoundTrip(i.size, []);
    var file, p := Bytes(i), |i.prefix|;
    assert file[..p] == i.prefix && file[p..p + 8] == Word(i.capacity) && file[p + 8..p + 16] == Word(i.size);
    assert file[p + 16..p + 16 + |i.data|] == i.data && file[p + 16 + |i.data|..] == i.suffix;
  }

  lemma BytesLoad(file: seq<byte>, prefixSize: nat, valueSize: nat)
    requires Load(file, prefixSize, valueSize).Some?
    ensures var i := Load(file, prefixSize, valueSize).value;
      Proper(i, valueSize) && |i.prefix| == prefixSize && Bytes(i) == file
  {
    hide Word, Value, Room;
    var p := prefixSize;
    WordRoundTrip(0, file[p..p + 8]);
    WordRoundTrip(0, file[p + 8..p + 16]);
    var i := Load(file, prefixSize, valueSize).value;
    var end := p + 16 + |i.data|;
    assert file == file[..p] + file[p..p + 8] + file[p + 8..p + 16] + file[p + 16..end] + file[end..];
  }

  /** The size of an accepted file, and where its parts are: the prefix in front, eight bytes of capacity, eight bytes
      of size, the elements and the suffix. */
  lemma FileSize(file: seq<byte>, prefixSize: nat, valueSize: nat)
    requires Load(file, prefixSize, valueSize).Some?
    ensures var i, p := Load(file, prefixSize, valueSize).value, prefixSize;
      && i.size <= i.capacity && |i.data| == i.capacity * valueSize
      && |file| == p + 16 + i.capacity * valueSize + |i.suffix|
      && i.prefix == file[..p] && Word(i.capacity) == file[p..p + 8] && Word(i.size) == file[p + 8..p + 16]
      && i.data == file[p + 16..p + 16 + |i.data|] && i.suffix == file[p + 16 + |i.data|..]
  {
    hide Load, Word;
    BytesLoad(file, prefixSize, valueSize);
  }

  // ---------------------------------------------------------------------------------------------
  // Writing through the pointers

  /** `file` with `bytes` written at offset `at`. */
  function Put(file: seq<byte>, at: nat, bytes: seq<byte>): (r: seq<byte>)
    requires at + |bytes| <= |file|
    ensures |r| == |file|
  {
    file[..at] + bytes + file[at + |bytes|..]
  }

  function CapacityPtr(prefixSize: nat): nat { prefixSize }
  function SizePtr(prefixSize: nat): nat { CapacityPtr(prefixSize) + 8 }
  function DataPtr(prefixSize: nat): nat { SizePtr(prefixSize) + 8 }
  function SuffixPtr(
    prefixSize: nat, capacity: nat, valueSize: nat): nat { DataPtr(prefixSize) + Room(capacity, valueSize) }

  lemma PutMiddle(a: seq<byte>, b: seq<byte>, c: seq<byte>, at: nat, bytes: seq<byte>)
    requires at + |bytes| <= |b|
    ensures Put(a + b + c, |a| + at, bytes) == a + Put(b, at, bytes) + c
  {
  }

  /** Each pointer reaches its own region and no other. */
  lemma PutCapacity(i: Image, v: nat)
    ensures Put(Bytes(i), CapacityPtr(|i.prefix|), Word(v)) == Bytes(i.(capacity := v))
  {
    hide Word;
  }

  lemma PutSize(i: Image, v: nat)
    ensures Put(Bytes(i), SizePtr(|i.prefix|), Word(v)) == Bytes(i.(size := v))
  {
    hide Word;
  }

  lemma PutPrefix(i: Image, bytes: seq<byte>)
    requires |bytes| <= |i.prefix|
    ensures Put(Bytes(i), 0, bytes) == Bytes(i.(prefix := Put(i.prefix, 0, bytes)))
  {
    hide Word;
  }

  lemma PutData(i: Image, at: nat, bytes: seq<byte>)
    requires at + |bytes| <= |i.data|
    ensures Put(Bytes(i), DataPtr(|i.prefix|) + at, bytes) == Bytes(i.(data := Put(i.data, at, bytes)))
  {
    hide Word, Put;
    PutMiddle(i.prefix + Word(i.capacity) + Word(i.size), i.data, i.suffix, at, bytes);
  }

  lemma PutSuffix(i: Image, bytes: seq<byte>)
    requires |bytes| <= |i.suffix|
    ensures Put(Bytes(i), DataPtr(|i.prefix|) + |i.data|, bytes) == Bytes(i.(suffix := Put(i.suffix, 0, bytes)))
  {
    hide Word;
  }

  function Zeros(n: nat): (z: seq<byte>)
    ensures |z| == n
  {
    seq(n, _ => 0)
  }

  /** A new file is all zeros, and so is each of its regions. */
  lemma NewFile(prefixSize: nat, room: nat, suffixSize: nat)
    ensures Zeros(prefixSize + METADATA_SIZE + room + suffixSize)
         == Bytes(Image(Zeros(prefixSize), 0, 0, Zeros(room), Zeros(suffixSize)))
  {
    DigitsOfZero(256, 8);
  }

  // ---------------------------------------------------------------------------------------------
  // The elements

  /** The first `n` elements of `data`. */
  function Cut(data: seq<byte>, valueSize: nat, n: nat): seq<seq<byte>> {
    if n == 0 || |data| < valueSize then []
    else [data[..valueSize]] + Cut(data[valueSize..], valueSize, n - 1)
  }

  function Flat(items: seq<seq<byte>>): seq<byte> {
    if items == [] then [] else items[0] + Flat(items[1..])
  }

  ghost predicate Sized(items: seq<seq<byte>>, valueSize: nat) {
    forall k :: 0 <= k < |items| ==> |items[k]| == valueSize
  }

  lemma {:induction false} FlatConcat(a: seq<seq<byte>>, b: seq<seq<byte>>)
    ensures Flat(a + b) == Flat(a) + Flat(b)
    decreases |a|
  {
    if a == [] {
      assert a + b == b;
    } else {
      assert (a + b)[1..] == a[1..] + b;
      FlatConcat(a[1..], b);
    }
  }

  lemma {:induction false} CutFlat(items: seq<seq<byte>>, rest: seq<byte>, valueSize: nat)
    requires Sized(items, valueSize)
    ensures Cut(Flat(items) + rest, valueSize, |items|) == items && |Flat(items)| == Room(|items|, valueSize)
    decreases |items|
  {
    hide Room;
    RoomNext(if items == [] then 0 else |items| - 1, valueSize);
    if items != [] {
      CutFlat(items[1..], rest, valueSize);
      assert (Flat(items) + rest)[..valueSize] == items[0];
      assert (Flat(items) + rest)[valueSize..] == Flat(items[1..]) + rest;
    }
  }

  lemma {:induction false} FlatCut(data: seq<byte>, valueSize: nat, n: nat)
    requires Room(n, valueSize) <= |data|
    ensures |Cut(data, valueSize, n)| == n && Sized(Cut(data, valueSize, n), valueSize)
    ensures Flat(Cut(data, valueSize, n)) == data[..Room(n, valueSize)]
    decreases n
  {
    hide Room;
    RoomNext(if n == 0 then 0 else n - 1, valueSize);
    if n > 0 {
      FlatCut(data[valueSize..], valueSize, n - 1);
      assert data[..Room(n, valueSize)] == data[..valueSize] + data[valueSize..][..Room(n - 1, valueSize)];
    }
  }
}
