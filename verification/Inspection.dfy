/** What inspectPacket in lib/site/engine/engine.go accepts, byte by byte: 13 bytes from the
    radio against the keys of the nodes that have been added. */
module Inspection {
  import opened Protocol
  import Xtea

  type Keys = map<Addr, Xtea.Key>

  datatype Finding =
    | UnknownSource
    | InvalidDecode
    | InvalidType
    | Valid(message: Message)

  predicate IsReply(m: Message) {
    m.typ == TYPE_VALUE || m.typ == TYPE_ACK
  }

  // Its tests, in their order; matching comes later.
  function Inspect(keys: Keys, raw: seq<Byte>): Finding
    requires |raw| == PACKET_LEN
  {
    if raw[..4] !in keys then UnknownSource
    else
      var result := Parse(keys[raw[..4]], raw);
      if !result.Decoded? then InvalidDecode
      else if !IsReply(result.message) then InvalidType
      else Valid(result.message)
  }

  // The type of a packet under a key.
  function TypUnder(key: Xtea.Key, raw: seq<Byte>): Byte
    requires |raw| == PACKET_LEN
  {
    TypOf(Xtea.Decrypted(Xtea.ROUNDS, Word(raw[5], raw[6], raw[7], raw[8]),
                         Word(raw[9], raw[10], raw[11], raw[12]), key).v0)
  }

  // A packet counts as valid exactly if its source is known, its version is 1 and its
  // decrypted type VALUE or ACK.
  lemma ValidByTypeIff(keys: Keys, raw: seq<Byte>)
    requires |raw| == PACKET_LEN
    ensures Inspect(keys, raw).Valid? <==>
      raw[..4] in keys && raw[4] == PACKET_VERSION
      && (TypUnder(keys[raw[..4]], raw) == TYPE_VALUE || TypUnder(keys[raw[..4]], raw) == TYPE_ACK)
    ensures Inspect(keys, raw).UnknownSource? <==> raw[..4] !in keys
    ensures Inspect(keys, raw).InvalidDecode? <==> raw[..4] in keys && raw[4] != PACKET_VERSION
  {
    hide TypOf, FlagsOf, RegOf, Word, Xtea.Decrypted;
  }

  // And it counts as valid with this content exactly if it is the one packet that the
  // node's key makes of it.
  lemma ValidIff(keys: Keys, raw: seq<Byte>, m: Message)
    requires |raw| == PACKET_LEN
    ensures Inspect(keys, raw) == Valid(m) <==> m.src in keys && IsReply(m) && raw == Wire(keys[m.src], m)
  {
    hide Parse, Wire, IsReply;
    if raw[..4] in keys {
      var key := keys[raw[..4]];
      ParseLooksAtTheHeader(key, raw);
      if Parse(key, raw).Decoded? {
        EncodeDecode(key, raw);
      }
    }
    if m.src in keys && raw == Wire(keys[m.src], m) {
      HeaderOf(keys[m.src], m);
      DecodeEncode(keys[m.src], m, []);
      assert raw + [] == raw;
    }
  }

  lemma WireIsInjective(key: Xtea.Key, m: Message, n: Message)
    requires Wire(key, m) == Wire(key, n)
    ensures m == n
  {
    hide Parse, Wire;
    DecodeEncode(key, m, []);
    DecodeEncode(key, n, []);
  }

  // What tells keys apart is the type alone: for every reply that a node might send there
  // is, under any other key, exactly one message whose packet passes for it.
  lemma OnePassesForEachReply(keys: Keys, other: Xtea.Key, m: Message) returns (twin: Message)
    requires m.src in keys && IsReply(m)
    ensures Inspect(keys, Wire(other, twin)) == Valid(m)
    ensures forall n: Message {:trigger Wire(other, n)} :: Inspect(keys, Wire(other, n)) == Valid(m) ==> n == twin
  {
    hide Parse, Wire, IsReply, Inspect;
    var raw := Wire(keys[m.src], m);
    KeysRejectNothing(keys[m.src], other, raw, m);
    twin := Parse(other, raw).message;
    ValidIff(keys, raw, m);
    forall n: Message {:trigger Wire(other, n)} | Inspect(keys, Wire(other, n)) == Valid(m) ensures n == twin {
      ValidIff(keys, Wire(other, n), m);
      WireIsInjective(other, n, twin);
    }
  }

  // A packet of a known node's own, under its own key, is rejected for its type alone.
  lemma OwnPackets(keys: Keys, m: Message)
    requires m.src in keys
    ensures Inspect(keys, Wire(keys[m.src], m)) == if IsReply(m) then Valid(m) else InvalidType
  {
    hide Parse, Wire, IsReply;
    HeaderOf(keys[m.src], m);
    DecodeEncode(keys[m.src], m, []);
    assert Wire(keys[m.src], m) + [] == Wire(keys[m.src], m);
  }
}
