/** Account addresses: a tag and the account's data, guarded by a checksum, in base 58. */
module Address {
  import opened ChainTypes
  import opened Positional
  import opened Base58
  import opened VarintCodec

  type Digest = s: seq<byte> | |s| == 32 witness seq(32, _ => 0)

  const CHECKSUM_SIZE := 4

  /** `encode_addr`; `hash` stands for the hash function whose first bytes are the checksum. */
  function EncodeAddr(hash: seq<byte> -> Digest, tag: u64, data: seq<byte>): string {
    var buf := Varint(tag) + data;
    Encoded(buf + hash(buf)[..CHECKSUM_SIZE])
  }

  /** The checked bytes of an address: none when it does not decode, is too short or its checksum differs. */
  function Checked(hash: seq<byte> -> Digest, addr: string): Option<seq<byte>> {
    match Decoded(addr)
    case None => None
    case Some(bytes) =>
      if |bytes| <= CHECKSUM_SIZE then None
      else
        var buf, checksum := bytes[..|bytes| - CHECKSUM_SIZE], bytes[|bytes| - CHECKSUM_SIZE..];
        if hash(buf)[..CHECKSUM_SIZE] != checksum then None else Some(buf)
  }

  /** `decode_addr`. */
  function DecodeAddr(hash: seq<byte> -> Digest, addr: string): Option<(u64, seq<byte>)> {
    match Checked(hash, addr)
    case None => None
    case Some(buf) =>
      var r := ReadFrom(buf, 0);
      if Answer(r) <= 0 then None
      else TagFits(buf); Some((r.value, buf[r.count..]))
  }

  lemma TagFits(buf: seq<byte>)
    requires ReadFrom(buf, 0).Read?
    ensures ReadFrom(buf, 0).value < TWO64
  {
    WriteUndoesRead(buf, 0);
    WholeRange();
  }

  /** The bytes of an address: the tag, the data, and the first four bytes of their hash. */
  lemma AddressBytes(hash: seq<byte> -> Digest, tag: u64, data: seq<byte>)
    ensures Decoded(EncodeAddr(hash, tag, data)) == Some(Varint(tag) + data + hash(Varint(tag) + data)[..4])
    ensures |Decoded(EncodeAddr(hash, tag, data)).value| == |Varint(tag)| + |data| + 4
  {
    hide Encoded, Decoded, Varint;
    DecodeUndoesEncode(Varint(tag) + data + hash(Varint(tag) + data)[..4]);
  }

  /** What is accepted: base 58 of more than four bytes of which the last four are the first of the hash of the others,
      and these begin with a number. */
  lemma AcceptedIff(hash: seq<byte> -> Digest, addr: string)
    ensures DecodeAddr(hash, addr).Some? <==>
              && Decoded(addr).Some? && |Decoded(addr).value| > 4
              && var bytes := Decoded(addr).value;
                 var buf := bytes[..|bytes| - 4];
                 bytes == buf + hash(buf)[..4] && Answer(ReadFrom(buf, 0)) > 0
  {
    hide Decoded, ReadFrom;
    if Decoded(addr).Some? && |Decoded(addr).value| > 4 {
      var bytes := Decoded(addr).value;
      assert bytes == bytes[..|bytes| - 4] + bytes[|bytes| - 4..];
      assert |hash(bytes[..|bytes| - 4])[..4]| == 4;
    }
  }

  /** Every address made from a tag and data gives back that tag and data. */
  lemma DecodeUndoesEncodeAddr(hash: seq<byte> -> Digest, tag: u64, data: seq<byte>)
    ensures DecodeAddr(hash, EncodeAddr(hash, tag, data)) == Some((tag, data))
  {
    hide Encoded, Decoded, Varint, Limit, ReadFrom;
    var buf := Varint(tag) + data;
    var bytes := buf + hash(buf)[..CHECKSUM_SIZE];
    DecodeUndoesEncode(bytes);
    assert bytes[..|bytes| - CHECKSUM_SIZE] == buf && bytes[|bytes| - CHECKSUM_SIZE..] == hash(buf)[..CHECKSUM_SIZE];
    WholeRange();
    ReadUndoesWrite(tag, data, 0);
    assert buf[|Varint(tag)|..] == data;
  }

  /** An address accepted by `decode_addr` is the one `encode_addr` makes, exactly when some byte in front of
      the checksum has its high bit clear: an unfinished tag is accepted too. */
  lemma EncodeUndoesDecodeAddr(hash: seq<byte> -> Digest, addr: string)
    requires DecodeAddr(hash, addr).Some?
    ensures Checked(hash, addr).Some?
    ensures var (tag, data) := DecodeAddr(hash, addr).value;
      var buf := Checked(hash, addr).value;
      EncodeAddr(hash, tag, data) == addr <==> exists i :: 0 <= i < |buf| && buf[i] < 128
  {
    hide Encoded, Decoded, Varint, Limit, ReadFrom;
    var buf := Checked(hash, addr).value;
    var r := ReadFrom(buf, 0);
    WriteUndoesRead(buf, 0);
    var bytes := Decoded(addr).value;
    assert bytes == buf + hash(buf)[..CHECKSUM_SIZE];
    EncodeUndoesDecode(addr);
    if r.complete {
      assert buf[r.count - 1] < 128;
      assert Varint(r.value) + buf[r.count..] == buf;
    } else {
      VarintEnds(r.value);
      OnlyAddress(hash, r.value, buf, addr);
    }
  }

  lemma OnlyAddress(hash: seq<byte> -> Digest, tag: u64, buf: seq<byte>, addr: string)
    requires Decoded(addr) == Some(buf + hash(buf)[..CHECKSUM_SIZE])
    ensures EncodeAddr(hash, tag, []) == addr ==> buf == Varint(tag)
  {
    hide Encoded, Decoded, Varint;
    var made := Varint(tag) + [];
    DecodeUndoesEncode(made + hash(made)[..CHECKSUM_SIZE]);
    if EncodeAddr(hash, tag, []) == addr {
      var all, all' := buf + hash(buf)[..CHECKSUM_SIZE], made + hash(made)[..CHECKSUM_SIZE];
      assert all == all' && |buf| == |made|;
      assert all[..|buf|] == buf && all'[..|made|] == made;
    }
  }

  /** Such an address exists whatever the hash: the one byte 0x80 reads as tag 0 and no data. */
  lemma UnfinishedTagIsAccepted(hash: seq<byte> -> Digest)
    ensures var addr := Encoded([128] + hash([128])[..CHECKSUM_SIZE]);
      DecodeAddr(hash, addr) == Some((0, [])) && EncodeAddr(hash, 0, []) != addr
  {
    hide Encoded, Decoded, Limit;
    var bytes: seq<byte> := [128] + hash([128])[..CHECKSUM_SIZE];
    var addr := Encoded(bytes);
    DecodeUndoesEncode(bytes);
    assert bytes[..|bytes| - CHECKSUM_SIZE] == [128]
           && bytes[|bytes| - CHECKSUM_SIZE..] == hash([128])[..CHECKSUM_SIZE];
    assert Checked(hash, addr) == Some([128]);
    var none: seq<byte> := [128][1..];
    assert none == [] && ReadFrom(none, 1) == Read(0, 0, false);
    assert ReadFrom([128], 0) == Read(1, 0, false);
    EncodeUndoesDecodeAddr(hash, addr);
  }
}
