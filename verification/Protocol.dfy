/** The packet format of lib/shared/protocol: byte packing around the cipher, the
    FLAGS byte with its NULL bit and GUARD field, and the codec that joins them. */
module Protocol {
  import opened Xtea

  type Byte = bv8
  // A four-byte device address.
  type Addr = s: seq<Byte> | |s| == 4 witness [0, 0, 0, 0]
  // A Go int32, kept as its two's complement bit pattern.
  type Int32 = bv32

  const PACKET_LEN: nat := 13
  const PACKET_VERSION: Byte := 0x01

  const TYPE_GET: Byte := 0x00
  const TYPE_VALUE: Byte := 0x01
  const TYPE_SET: Byte := 0x02
  const TYPE_ACK: Byte := 0x03

  const FLAG_NULL: Byte := 0x01
  const GUARD_MASK: Byte := 0x7F
  const MAX_GUARD_MILLIS: Byte := GUARD_MASK

  function GuardFlags(flags: Byte): Byte {
    flags & (GUARD_MASK << 1)
  }

  function FlagsWithGuard(flags: Byte, guardMillis: Byte): Byte {
    var clamped := if guardMillis > MAX_GUARD_MILLIS then MAX_GUARD_MILLIS else guardMillis;
    (flags & !(GUARD_MASK << 1)) | (clamped << 1)
  }

  function GuardMillis(flags: Byte): Byte {
    (flags >> 1) & GUARD_MASK
  }

  // GUARD survives packing up to the clamp, NULL is untouched, and a reply that
  // echoes GUARD and sets its own NULL bit carries exactly those two facts.
  lemma FlagsCarryGuardAndNull(flags: Byte, guardMillis: Byte, nullBit: Byte)
    requires nullBit == 0 || nullBit == FLAG_NULL
    ensures GuardMillis(FlagsWithGuard(flags, guardMillis))
         == if guardMillis > MAX_GUARD_MILLIS then MAX_GUARD_MILLIS else guardMillis
    ensures FlagsWithGuard(flags, guardMillis) & FLAG_NULL == flags & FLAG_NULL
    ensures var reply := GuardFlags(flags) | nullBit;
      GuardMillis(reply) == GuardMillis(flags) && reply & FLAG_NULL == nullBit
    ensures GuardFlags(flags) | (flags & FLAG_NULL) == flags
  {
  }

  // The plaintext content of one packet.
  datatype Message = Message(src: Addr, typ: Byte, flags: Byte, reg: bv16, value: Int32)

  datatype DecodeResult =
    | Decoded(message: Message)
    | ShortPacket
    | UnsupportedPacket

  function Word(b0: Byte, b1: Byte, b2: Byte, b3: Byte): bv32 {
    (b0 as bv32) | ((b1 as bv32) << 8) | ((b2 as bv32) << 16) | ((b3 as bv32) << 24)
  }

  // The first byte counts least.
  lemma WordCounts(b0: Byte, b1: Byte, b2: Byte, b3: Byte)
    ensures Word(b0, b1, b2, b3) ==
      (b0 as bv32) + 0x100 * (b1 as bv32) + 0x1_0000 * (b2 as bv32) + 0x100_0000 * (b3 as bv32)
  {
  }

  function Bytes(w: bv32): (r: seq<Byte>)
    ensures |r| == 4
  {
    [ByteAt(w, 0), ByteAt(w, 8), ByteAt(w, 16), ByteAt(w, 24)]
  }

  function ByteAt(w: bv32, shift: nat): Byte
    requires shift < 32
  {
    ((w >> shift) & 0xFF) as Byte
  }

  lemma WordHoldsItsBytes(b0: Byte, b1: Byte, b2: Byte, b3: Byte)
    ensures ByteAt(Word(b0, b1, b2, b3), 0) == b0
    ensures ByteAt(Word(b0, b1, b2, b3), 8) == b1
    ensures ByteAt(Word(b0, b1, b2, b3), 16) == b2
    ensures ByteAt(Word(b0, b1, b2, b3), 24) == b3
  {
  }

  lemma BytesOfWord(b0: Byte, b1: Byte, b2: Byte, b3: Byte)
    ensures Bytes(Word(b0, b1, b2, b3)) == [b0, b1, b2, b3]
  {
    hide Word, ByteAt;
    WordHoldsItsBytes(b0, b1, b2, b3);
  }

  lemma WordIsItsBytes(w: bv32)
    ensures Word(ByteAt(w, 0), ByteAt(w, 8), ByteAt(w, 16), ByteAt(w, 24)) == w
  {
  }

  lemma WordOfBytes(w: bv32)
    ensures var b := Bytes(w); Word(b[0], b[1], b[2], b[3]) == w
  {
    hide Word, ByteAt;
    WordIsItsBytes(w);
  }

  // TYPE, FLAGS and REG share the first word of the block.
  function Head(typ: Byte, flags: Byte, reg: bv16): bv32 {
    (typ as bv32) | ((flags as bv32) << 8) | ((reg as bv32) << 16)
  }

  function TypOf(head: bv32): Byte { (head & 0xFF) as Byte }

  function FlagsOf(head: bv32): Byte { ((head >> 8) & 0xFF) as Byte }

  function RegOf(head: bv32): bv16 { (head >> 16) as bv16 }

  lemma HeadIsBijective(typ: Byte, flags: Byte, reg: bv16, head: bv32)
    ensures var h := Head(typ, flags, reg); TypOf(h) == typ && FlagsOf(h) == flags && RegOf(h) == reg
    ensures Head(TypOf(head), FlagsOf(head), RegOf(head)) == head
  {
  }

  // The 13 bytes of a message under a key.
  function Wire(key: Key, m: Message): (r: seq<Byte>)
    ensures |r| == PACKET_LEN
  {
    var e := Encrypted(ROUNDS, Head(m.typ, m.flags, m.reg), m.value, key);
    m.src + [PACKET_VERSION] + Bytes(e.v0) + Bytes(e.v1)
  }

  function Parse(key: Key, raw: seq<Byte>): DecodeResult {
    if |raw| < PACKET_LEN then ShortPacket
    else if raw[4] != PACKET_VERSION then UnsupportedPacket
    else
      var d := Decrypted(ROUNDS, Word(raw[5], raw[6], raw[7], raw[8]), Word(raw[9], raw[10], raw[11], raw[12]), key);
      Decoded(Message(raw[..4], TypOf(d.v0), FlagsOf(d.v0), RegOf(d.v0), d.v1))
  }

  // Every field survives, whatever follows the packet in the buffer.
  lemma DecodeEncode(key: Key, m: Message, tail: seq<Byte>)
    ensures Parse(key, Wire(key, m) + tail) == Decoded(m)
  {
    hide Encrypted, Decrypted, Head, TypOf, FlagsOf, RegOf, Word, Bytes;
    var head := Head(m.typ, m.flags, m.reg);
    var e := Encrypted(ROUNDS, head, m.value, key);
    var raw := Wire(key, m) + tail;
    assert raw[..4] == m.src;
    assert raw[5..9] == Bytes(e.v0) && raw[9..13] == Bytes(e.v1);
    assert raw[5] == raw[5..9][0] && raw[6] == raw[5..9][1] && raw[7] == raw[5..9][2] && raw[8] == raw[5..9][3];
    assert raw[9] == raw[9..13][0] && raw[10] == raw[9..13][1] && raw[11] == raw[9..13][2] && raw[12] == raw[9..13][3];
    WordOfBytes(e.v0);
    WordOfBytes(e.v1);
    DecryptEncrypt(ROUNDS, head, m.value, key);
    HeadIsBijective(m.typ, m.flags, m.reg, head);
  }

  // The bytes of a 13-byte packet, part by part.
  lemma PartsOf(raw: seq<Byte>)
    requires |raw| == PACKET_LEN
    ensures raw == raw[..4] + [raw[4]] + [raw[5], raw[6], raw[7], raw[8]] + [raw[9], raw[10], raw[11], raw[12]]
  {
  }

  // A 13-byte packet that decodes is the one and only encoding of what it decodes to.
  lemma EncodeDecode(key: Key, raw: seq<Byte>)
    requires |raw| == PACKET_LEN && Parse(key, raw).Decoded?
    ensures Wire(key, Parse(key, raw).message) == raw
  {
    hide Encrypted, Decrypted, Head, TypOf, FlagsOf, RegOf, Word, Bytes;
    var w0, w1 := Word(raw[5], raw[6], raw[7], raw[8]), Word(raw[9], raw[10], raw[11], raw[12]);
    var d := Decrypted(ROUNDS, w0, w1, key);
    HeadIsBijective(0, 0, 0, d.v0);
    EncryptDecrypt(ROUNDS, w0, w1, key);
    BytesOfWord(raw[5], raw[6], raw[7], raw[8]);
    BytesOfWord(raw[9], raw[10], raw[11], raw[12]);
    PartsOf(raw);
  }

  lemma HeaderOf(key: Key, m: Message)
    ensures Wire(key, m)[..4] == m.src && Wire(key, m)[4] == PACKET_VERSION
  {
    hide Encrypted, Head, Bytes;
  }

  lemma ParseLooksAtTheHeader(key: Key, raw: seq<Byte>)
    ensures Parse(key, raw).Decoded? <==> |raw| >= PACKET_LEN && raw[4] == PACKET_VERSION
    ensures Parse(key, raw).Decoded? ==> Parse(key, raw).message.src == raw[..4]
  {
    hide Decrypted, TypOf, FlagsOf, RegOf, Word;
  }

  // The cipher authenticates nothing: what one key accepts every other key accepts as
  // well, and the packet of a message under one key is the packet of some message from
  // the same source under any other.
  lemma KeysRejectNothing(key: Key, other: Key, raw: seq<Byte>, m: Message)
    ensures Parse(other, raw).Decoded? <==> Parse(key, raw).Decoded?
    ensures var read := Parse(other, Wire(key, m));
      read.Decoded? && read.message.src == m.src && Wire(other, read.message) == Wire(key, m)
  {
    hide Wire, Parse;
    ParseLooksAtTheHeader(key, raw);
    ParseLooksAtTheHeader(other, raw);
    HeaderOf(key, m);
    ParseLooksAtTheHeader(other, Wire(key, m));
    EncodeDecode(other, Wire(key, m));
  }

  // A key is sixteen bytes, read as four little-endian words.
  function KeyOf(bytes: seq<Byte>): Key
    requires |bytes| == 16
  {
    Key(Word(bytes[0], bytes[1], bytes[2], bytes[3]), Word(bytes[4], bytes[5], bytes[6], bytes[7]),
        Word(bytes[8], bytes[9], bytes[10], bytes[11]), Word(bytes[12], bytes[13], bytes[14], bytes[15]))
  }

  // Each word of a key from its four bytes.
  lemma KeyWords(bytes: seq<Byte>)
    requires |bytes| == 16
    ensures KeyOf(bytes).k0 == (bytes[0] as bv32) + 0x100 * (bytes[1] as bv32) + 0x1_0000 * (bytes[2] as bv32)
      + 0x100_0000 * (bytes[3] as bv32)
    ensures KeyOf(bytes).k1 == (bytes[4] as bv32) + 0x100 * (bytes[5] as bv32) + 0x1_0000 * (bytes[6] as bv32)
      + 0x100_0000 * (bytes[7] as bv32)
    ensures KeyOf(bytes).k2 == (bytes[8] as bv32) + 0x100 * (bytes[9] as bv32) + 0x1_0000 * (bytes[10] as bv32)
      + 0x100_0000 * (bytes[11] as bv32)
    ensures KeyOf(bytes).k3 == (bytes[12] as bv32) + 0x100 * (bytes[13] as bv32) + 0x1_0000 * (bytes[14] as bv32)
      + 0x100_0000 * (bytes[15] as bv32)
  {
    hide Word;
    WordCounts(bytes[0], bytes[1], bytes[2], bytes[3]);
    WordCounts(bytes[4], bytes[5], bytes[6], bytes[7]);
    WordCounts(bytes[8], bytes[9], bytes[10], bytes[11]);
    WordCounts(bytes[12], bytes[13], bytes[14], bytes[15]);
  }

  lemma QuadInKey(a: seq<Byte>, b: seq<Byte>, i: nat)
    requires |a| == |b| == 16 && i <= 12
    requires Word(a[i], a[i + 1], a[i + 2], a[i + 3]) == Word(b[i], b[i + 1], b[i + 2], b[i + 3])
    ensures a[i..i + 4] == b[i..i + 4]
  {
    hide Word, Bytes;
    BytesOfWord(a[i], a[i + 1], a[i + 2], a[i + 3]);
    BytesOfWord(b[i], b[i + 1], b[i + 2], b[i + 3]);
    assert a[i..i + 4] == [a[i], a[i + 1], a[i + 2], a[i + 3]];
    assert b[i..i + 4] == [b[i], b[i + 1], b[i + 2], b[i + 3]];
  }

  // Different keys give different codecs.
  lemma KeyLosesNothing(a: seq<Byte>, b: seq<Byte>)
    requires |a| == |b| == 16 && KeyOf(a) == KeyOf(b)
    ensures a == b
  {
    hide Word;
    QuadInKey(a, b, 0);
    QuadInKey(a, b, 4);
    QuadInKey(a, b, 8);
    QuadInKey(a, b, 12);
    assert a == a[0..4] + a[4..8] + a[8..12] + a[12..16];
    assert b == b[0..4] + b[4..8] + b[8..12] + b[12..16];
  }

  class Codec {
    const key: array<bv32>

    ghost predicate Valid()
      reads this
    {
      key.Length == 4
    }

    ghost function Words(): Key
      reads this, key
      requires Valid()
    {
      Key(key[0], key[1], key[2], key[3])
    }

    constructor (bytes: seq<Byte>)
      requires |bytes| == 16
      ensures Valid() && fresh(key)
      ensures Words() == KeyOf(bytes)
      ensures key[0] == (bytes[0] as bv32) + 0x100 * (bytes[1] as bv32) + 0x1_0000 * (bytes[2] as bv32)
        + 0x100_0000 * (bytes[3] as bv32)
      ensures key[1] == (bytes[4] as bv32) + 0x100 * (bytes[5] as bv32) + 0x1_0000 * (bytes[6] as bv32)
        + 0x100_0000 * (bytes[7] as bv32)
      ensures key[2] == (bytes[8] as bv32) + 0x100 * (bytes[9] as bv32) + 0x1_0000 * (bytes[10] as bv32)
        + 0x100_0000 * (bytes[11] as bv32)
      ensures key[3] == (bytes[12] as bv32) + 0x100 * (bytes[13] as bv32) + 0x1_0000 * (bytes[14] as bv32)
        + 0x100_0000 * (bytes[15] as bv32)
    {
      key := new bv32[4];
      new;
      for i := 0 to 4
        invariant forall j :: 0 <= j < i ==>
          key[j] == Word(bytes[4 * j], bytes[4 * j + 1], bytes[4 * j + 2], bytes[4 * j + 3])
      {
        key[i] := Word(bytes[i * 4], bytes[i * 4 + 1], bytes[i * 4 + 2], bytes[i * 4 + 3]);
      }
      KeyWords(bytes);
    }

    // Writes the packet over the first 13 bytes of dst and nothing else.
    method Encode(dst: array<Byte>, src: Addr, typ: Byte, flags: Byte, reg: bv16, value: Int32)
      requires Valid() && dst.Length >= PACKET_LEN
      modifies dst
      ensures dst[..PACKET_LEN] == Wire(Words(), Message(src, typ, flags, reg, value))
      ensures dst[PACKET_LEN..] == old(dst[PACKET_LEN..])
    {
      hide Encrypted, Decrypted, Head, Bytes;
      forall i | 0 <= i < 4 { dst[i] := src[i]; }
      dst[4] := PACKET_VERSION;
      var v0, v1 := Head(typ, flags, reg), value;
      v0, v1 := XteaEncrypt(v0, v1, Key(key[0], key[1], key[2], key[3]));
      var b0, b1 := Bytes(v0), Bytes(v1);
      forall i | 0 <= i < 4 { dst[5 + i] := b0[i]; }
      forall i | 0 <= i < 4 { dst[9 + i] := b1[i]; }
    }

    method Decode(raw: seq<Byte>) returns (r: DecodeResult)
      requires Valid()
      ensures r == Parse(Words(), raw)
    {
      hide Encrypted, Decrypted, Word, TypOf, FlagsOf, RegOf;
      if |raw| < PACKET_LEN {
        return ShortPacket;
      }
      if raw[4] != PACKET_VERSION {
        return UnsupportedPacket;
      }
      var v0, v1 := Word(raw[5], raw[6], raw[7], raw[8]), Word(raw[9], raw[10], raw[11], raw[12]);
      v0, v1 := XteaDecrypt(v0, v1, Key(key[0], key[1], key[2], key[3]));
      r := Decoded(Message(raw[0..4], TypOf(v0), FlagsOf(v0), RegOf(v0), v1));
    }
  }
}
