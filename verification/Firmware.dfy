/** The firmware side of a transaction in lib/node/node.go: one Poll over the buffers of
    a node, what it does for each packet, and that the hub reads in its reply what the
    device was asked. */
module Firmware {
  import opened Protocol
  import opened Turnaround
  import Xtea

  // What a register of the device reads as.
  datatype Reading = Reading(value: Int32, isNull: bool)

  datatype Event =
    | Slept(milliseconds: Byte)
    | Sent(dst: Addr, packet: seq<Byte>)
    | Wrote(reg: bv16, value: Int32, isNull: bool)

  // The device's registers by tag.
  type Device = map<int, Reading>

  // A map-like device: a register never written has no value.
  function Read(device: Device, reg: bv16): Reading {
    if reg as int in device then device[reg as int] else Reading(0, true)
  }

  predicate HasNull(flags: Byte) {
    flags & FLAG_NULL != 0
  }

  // The flags of an ACK: the request's own.
  function AckFlags(flags: Byte): Byte {
    GuardFlags(flags) | (flags & FLAG_NULL)
  }

  function NullBit(isNull: bool): Byte {
    if isNull then FLAG_NULL else 0
  }

  function Sleep(flags: Byte): seq<Event> {
    if GuardMillis(flags) != 0 then [Slept(GuardMillis(flags))] else []
  }

  // The single reply to a GET or SET, and nothing for anything else.
  function Replies(device: Device, self: Addr, m: Message): seq<Message> {
    if m.typ == TYPE_GET then
      var current := Read(device, m.reg);
      [Message(self, TYPE_VALUE, GuardFlags(m.flags) | NullBit(current.isNull), m.reg,
               if current.isNull then 0 else current.value)]
    else if m.typ == TYPE_SET then [Message(self, TYPE_ACK, AckFlags(m.flags), m.reg, 0)]
    else []
  }

  // Everything a decoded packet makes the node do, in order.
  function Events(key: Xtea.Key, device: Device, self: Addr, m: Message): seq<Event> {
    var replies := Replies(device, self, m);
    if replies == [] then []
    else
      Sleep(m.flags) + [Sent(m.src, Wire(key, replies[0]))]
      + if m.typ == TYPE_SET then [Wrote(m.reg, m.value, HasNull(m.flags))] else []
  }

  // What a SET leaves in its register.
  function Assigned(m: Message): Reading {
    if HasNull(m.flags) then Reading(0, true) else Reading(m.value, false)
  }

  function DeviceAfter(device: Device, m: Message): Device {
    if m.typ == TYPE_SET then device[m.reg as int := Assigned(m)] else device
  }

  // A packet of the right length and version is handled, whatever is in it.
  predicate Handled(key: Xtea.Key, packet: seq<Byte>) {
    |packet| == PACKET_LEN && Parse(key, packet).Decoded?
  }

  class Node {
    const codec: Codec
    const self: Addr
    const onlineTimeout: int
    const rxBuf: array<Byte>
    const txBuf: array<Byte>
    var onlineUntil: int

    var inbox: seq<seq<Byte>>  // the radio: packets waiting
    var device: Device         // the device
    ghost var events: seq<Event>

    ghost predicate Valid()
      reads this, codec
    {
      && codec.Valid() && rxBuf.Length == PACKET_LEN && txBuf.Length == PACKET_LEN && rxBuf != txBuf
      && forall i | 0 <= i < |inbox| :: |inbox[i]| <= PACKET_LEN
    }

    constructor (key: seq<Byte>, self: Addr, onlineTimeout: int, device: Device)
      requires |key| == 16 && onlineTimeout >= 0
      ensures Valid() && fresh(codec) && fresh(codec.key) && fresh(rxBuf) && fresh(txBuf)
      ensures codec.Words() == KeyOf(key) && this.self == self && this.device == device && inbox == [] && events == []
      ensures this.onlineTimeout == if onlineTimeout == 0 then 10_000 * MILLISECOND else onlineTimeout
    {
      this.self := self;
      this.onlineTimeout := if onlineTimeout == 0 then 10_000 * MILLISECOND else onlineTimeout;
      codec := new Codec(key);
      rxBuf := new Byte[PACKET_LEN](_ => 0);
      txBuf := new Byte[PACKET_LEN](_ => 0);
      this.device, inbox, events, onlineUntil := device, [], [], 0;
    }

    // The radio's Receive: at most one packet, copied over the start of the buffer.
    method Receive() returns (n: nat, ok: bool)
      requires Valid()
      modifies this`inbox, rxBuf
      ensures Valid() && (ok <==> old(inbox) != [])
      ensures ok ==> inbox == old(inbox[1..]) && n == |old(inbox[0])| && rxBuf[..n] == old(inbox[0])
      ensures !ok ==> inbox == old(inbox)
    {
      n, ok := 0, inbox != [];
      if ok {
        var packet := inbox[0];
        inbox := inbox[1..];
        n := |packet|;
        forall i | 0 <= i < n { rxBuf[i] := packet[i]; }
      }
    }

    method WaitGuard(flags: Byte)
      modifies this`events
      ensures events == old(events) + Sleep(flags)
    {
      if GuardMillis(flags) != 0 {
        events := events + [Slept(GuardMillis(flags))];
      }
    }

    // Encodes into the node's only buffer, and hands it to the radio.
    method Send(dst: Addr, typ: Byte, flags: Byte, reg: bv16, value: Int32)
      requires Valid()
      modifies this`events, txBuf
      ensures Valid() && events == old(events) + [Sent(dst, Wire(codec.Words(), Message(self, typ, flags, reg, value)))]
    {
      hide Wire;
      codec.Encode(txBuf, self, typ, flags, reg, value);
      assert txBuf[..] == txBuf[..PACKET_LEN];
      events := events + [Sent(dst, txBuf[..])];
    }

    method ReplyValue(dst: Addr, requestFlags: Byte, reg: bv16, value: Int32, isNull: bool)
      requires Valid()
      modifies this`events, txBuf
      ensures Valid()
      ensures events == old(events) + [Sent(dst, Wire(codec.Words(),
        Message(self, TYPE_VALUE, GuardFlags(requestFlags) | NullBit(isNull), reg, if isNull then 0 else value)))]
    {
      hide Wire;
      var flags, value := GuardFlags(requestFlags), value;
      assert flags | 0 == flags;
      if isNull {
        flags, value := flags | FLAG_NULL, 0;
      }
      Send(dst, TYPE_VALUE, flags, reg, value);
    }

    method Poll(now: int) returns (handled: bool)
      requires Valid()
      modifies this, rxBuf, txBuf
      ensures Valid() && codec.Words() == old(codec.Words())
      ensures handled <==> old(inbox) != [] && Handled(codec.Words(), old(inbox[0]))
      ensures inbox == if old(inbox) == [] then [] else old(inbox[1..])
      ensures if handled then
                var m := Parse(codec.Words(), old(inbox[0])).message;
                && events == old(events) + Events(codec.Words(), old(device), self, m)
                && device == DeviceAfter(old(device), m)
                && onlineUntil == now + onlineTimeout
              else
                events == old(events) && device == old(device) && onlineUntil == old(onlineUntil)
      ensures handled ==>
        var m := Parse(codec.Words(), old(inbox[0])).message;
        var guard := GuardMillis(m.flags);
        if m.typ == TYPE_GET || m.typ == TYPE_SET then
          exists packet ::
            events == old(events) + (if guard == 0 then [] else [Slept(guard)]) + [Sent(m.src, packet)]
              + if m.typ == TYPE_SET then [Wrote(m.reg, m.value, m.flags & FLAG_NULL != 0)] else []
        else events == old(events)
    {
      hide Parse, Wire, GuardMillis;
      var n, ok := Receive();
      if !ok || n != PACKET_LEN {
        return false;
      }
      assert rxBuf[..] == rxBuf[..n];
      var decoded := codec.Decode(rxBuf[..]);
      if !decoded.Decoded? {
        return false;
      }
      onlineUntil := now + onlineTimeout;
      Dispatch(decoded.message);
      handled := true;
      EventsInOrder(codec.Words(), old(device), self, decoded.message, old(events));
      hide Events;
    }

    method HandleGet(m: Message)
      requires Valid() && m.typ == TYPE_GET
      modifies this`events, txBuf
      ensures Valid() && events == old(events) + Events(codec.Words(), device, self, m)
    {
      hide Wire, Sleep, GuardFlags, GuardMillis;
      var current := Read(device, m.reg);
      WaitGuard(m.flags);
      ReplyValue(m.src, m.flags, m.reg, current.value, current.isNull);
    }

    // ACK confirms the receipt; the write comes after it.
    method HandleSet(m: Message)
      requires Valid() && m.typ == TYPE_SET
      modifies this`events, this`device, txBuf
      ensures Valid() && events == old(events) + Events(codec.Words(), old(device), self, m)
      ensures device == DeviceAfter(old(device), m)
    {
      hide Wire, Sleep, AckFlags, GuardMillis, Read, HasNull;
      assert Assigned(m) == if HasNull(m.flags) then Reading(0, true) else Reading(m.value, false);
      hide Assigned;
      WaitGuard(m.flags);
      Send(m.src, TYPE_ACK, AckFlags(m.flags), m.reg, 0);
      Write(m.reg, m.value, HasNull(m.flags));
    }

    // The switch of Poll.
    method Dispatch(m: Message)
      requires Valid()
      modifies this`events, this`device, txBuf
      ensures Valid() && events == old(events) + Events(codec.Words(), old(device), self, m)
      ensures device == DeviceAfter(old(device), m)
    {
      if m.typ == TYPE_GET {
        hide Events;
        HandleGet(m);
      } else if m.typ == TYPE_SET {
        hide Events;
        HandleSet(m);
      }
    }

    // The device's Write: an absolute assignment, or a clear.
    method Write(reg: bv16, value: Int32, isNull: bool)
      requires Valid()
      modifies this`events, this`device
      ensures Valid() && events == old(events) + [Wrote(reg, value, isNull)]
      ensures device == old(device)[reg as int := if isNull then Reading(0, true) else Reading(value, false)]
    {
      device := device[reg as int := if isNull then Reading(0, true) else Reading(value, false)];
      events := events + [Wrote(reg, value, isNull)];
    }
  }

  // For a GET or SET: the sleep that it asks for, one reply to its sender, and the write.
  lemma EventsInOrder(key: Xtea.Key, device: Device, self: Addr, m: Message, before: seq<Event>)
    ensures var guard := GuardMillis(m.flags);
      if m.typ == TYPE_GET || m.typ == TYPE_SET then
        exists packet ::
          before + Events(key, device, self, m) ==
            before + (if guard == 0 then [] else [Slept(guard)]) + [Sent(m.src, packet)]
              + if m.typ == TYPE_SET then [Wrote(m.reg, m.value, m.flags & FLAG_NULL != 0)] else []
      else before + Events(key, device, self, m) == before
  {
    hide Wire, GuardMillis, AckFlags, GuardFlags;
    if m.typ == TYPE_GET || m.typ == TYPE_SET {
      var packet := Wire(key, Replies(device, self, m)[0]);
      var guard := GuardMillis(m.flags);
      assert before + Events(key, device, self, m) ==
        before + (if guard == 0 then [] else [Slept(guard)]) + [Sent(m.src, packet)]
          + if m.typ == TYPE_SET then [Wrote(m.reg, m.value, m.flags & FLAG_NULL != 0)] else [];
    }
  }

  // How long the node has slept before it sends for the first time.
  function SleptBeforeSending(events: seq<Event>): int {
    if events == [] || events[0].Sent? then 0
    else (if events[0].Slept? then (events[0].milliseconds as int) * MILLISECOND
      else 0) + SleptBeforeSending(events[1..])
  }

  lemma SleepsAsAsked(key: Xtea.Key, device: Device, self: Addr, m: Message)
    requires m.typ == TYPE_GET || m.typ == TYPE_SET
    ensures SleptBeforeSending(Events(key, device, self, m)) == NodeWait(m.flags)
  {
    hide Wire, GuardMillis, AckFlags, GuardFlags;
    var packet := Wire(key, Replies(device, self, m)[0]);
    if GuardMillis(m.flags) == 0 {
      assert Events(key, device, self, m)[0] == Sent(m.src, packet);
    } else {
      assert Events(key, device, self, m)[0] == Slept(GuardMillis(m.flags));
      assert Events(key, device, self, m)[1..][0] == Sent(m.src, packet);
    }
  }

  // So what a node does before its reply to a request of the hub, and the headroom, fit
  // the hub's drain interval, and that fits its timeout.
  lemma PollFitsDrain(key: Xtea.Key, hub: Addr, typ: Byte, isNull: bool, reg: bv16, value: Int32, guard: int,
                      timeout: int, device: Device, self: Addr)
    requires guard >= 0 && Accepted(guard, timeout) && (typ == TYPE_GET || typ == TYPE_SET)
    ensures var request := Parse(key, Wire(key, Request(hub, typ, NullBit(isNull), reg, value, guard)));
      && request.Decoded?
      && var slept := SleptBeforeSending(Events(key, device, self, request.message));
         && slept <= guard && (guard < 128 * MILLISECOND ==> guard - MILLISECOND < slept)
         && slept + MIN_REPLY_HEADROOM <= DrainInterval(guard) <= timeout
  {
    hide Wire, Parse, GuardMillis, FlagsWithGuard, GuardByte, Events, SleptBeforeSending, NodeWait;
    var request := Request(hub, typ, NullBit(isNull), reg, value, guard);
    TurnaroundChain(key, hub, typ, NullBit(isNull), reg, value, guard, timeout, 0);
    WaitFitsDrain(NullBit(isNull), guard);
    SleepsAsAsked(key, device, self, request);
  }

  // ---------- what the hub gets back ----------

  function Transmissions(events: seq<Event>): nat {
    if events == [] then 0
    else Transmissions(events[..|events| - 1]) + if events[|events| - 1].Sent? then 1 else 0
  }

  lemma {:induction false} TransmissionsAdd(a: seq<Event>, b: seq<Event>)
    ensures Transmissions(a + b) == Transmissions(a) + Transmissions(b)
  {
    if b == [] {
      assert a + b == a;
    } else {
      TransmissionsAdd(a, b[..|b| - 1]);
      assert (a + b)[..|a + b| - 1] == a + b[..|b| - 1];
    }
  }

  lemma SentInBetween(before: seq<Event>, sent: Event, after: seq<Event>)
    requires |before| <= 1 && (before != [] ==> before[0].Slept?)
    requires sent.Sent? && |after| <= 1 && (after != [] ==> after[0].Wrote?)
    ensures var events := before + [sent] + after;
      && Transmissions(events) == 1
      && forall i, j | 0 <= i < |events| && 0 <= j < |events| :: events[i].Wrote? && events[j].Sent? ==> j < i
  {
    TransmissionsAdd(before + [sent], after);
    TransmissionsAdd(before, [sent]);
  }

  // One reply for a request, before any write; none for a packet of another type.
  lemma OneReplyPerRequest(key: Xtea.Key, device: Device, self: Addr, m: Message)
    ensures var events := Events(key, device, self, m);
      && Transmissions(events) == (if m.typ == TYPE_GET || m.typ == TYPE_SET then 1 else 0)
      && forall i, j | 0 <= i < |events| && 0 <= j < |events| :: events[i].Wrote? && events[j].Sent? ==> j < i
  {
    hide Wire, GuardMillis, GuardFlags, Read;
    var replies := Replies(device, self, m);
    if replies != [] {
      SentInBetween(Sleep(m.flags), Sent(m.src, Wire(key, replies[0])),
                    if m.typ == TYPE_SET then [Wrote(m.reg, m.value, HasNull(m.flags))] else []);
      hide Sleep, Transmissions;
    }
  }

  // From the hub's GET to the hub's reading of the reply: the same register, the
  // device's reading, and the guard that was sent.
  lemma HubReadsTheDevice(key: Xtea.Key, hub: Addr, self: Addr, reg: bv16, guard: int, device: Device)
    ensures var request := Parse(key, Wire(key, Request(hub, TYPE_GET, 0, reg, 0, guard)));
      request.Decoded? && |Replies(device, self, request.message)| == 1
    ensures var request := Parse(key, Wire(key, Request(hub, TYPE_GET, 0, reg, 0, guard))).message;
      var reply := Parse(key, Wire(key, Replies(device, self, request)[0]));
      && reply.Decoded? && reply.message.src == self && reply.message.typ == TYPE_VALUE && reply.message.reg == reg
      && (reply.message.flags & FLAG_NULL != 0 <==> Read(device, reg).isNull)
      && (!Read(device, reg).isNull ==> reply.message.value == Read(device, reg).value)
      && GuardMillis(reply.message.flags) == GuardByte(guard)
  {
    hide Wire, Parse, GuardByte;
    var request := Request(hub, TYPE_GET, 0, reg, 0, guard);
    ReadsBack(key, request);
    ReadsBack(key, Replies(device, self, request)[0]);
    FlagsCarryGuardAndNull(0, GuardByte(guard), NullBit(Read(device, reg).isNull));
    FlagsCarryGuardAndNull(request.flags, 0, NullBit(Read(device, reg).isNull));
    GuardByteTruncatesAndClamps(guard);
    hide GuardMillis, GuardFlags, FlagsWithGuard;
  }

  lemma WrittenOnce(device: Device, m: Message)
    requires m.typ == TYPE_SET
    ensures Read(DeviceAfter(device, m), m.reg) == Assigned(m)
    ensures DeviceAfter(DeviceAfter(device, m), m) == DeviceAfter(device, m)
  {
    hide Assigned;
  }

  lemma NullSurvives(isNull: bool, guard: int)
    ensures HasNull(FlagsWithGuard(NullBit(isNull), GuardByte(guard))) <==> isNull
  {
    FlagsCarryGuardAndNull(NullBit(isNull), GuardByte(guard), 0);
  }

  // From the hub's SET to the device and back: the ACK names the register, and the
  // device then reads what was set, however often the request is repeated.
  lemma SetArrives(key: Xtea.Key, hub: Addr, self: Addr, reg: bv16, value: Int32, isNull: bool, guard: int,
                   device: Device)
    ensures var request := Parse(key, Wire(key, Request(hub, TYPE_SET, NullBit(isNull), reg, value, guard)));
      request.Decoded? && |Replies(device, self, request.message)| == 1
    ensures var request := Parse(key, Wire(key, Request(hub, TYPE_SET, NullBit(isNull), reg, value, guard))).message;
      var reply := Parse(key, Wire(key, Replies(device, self, request)[0]));
      && reply.Decoded? && reply.message.src == self && reply.message.typ == TYPE_ACK && reply.message.reg == reg
      && GuardMillis(reply.message.flags) == GuardByte(guard) && (reply.message.flags & FLAG_NULL != 0 <==> isNull)
      && Read(DeviceAfter(device, request), reg) == (if isNull then Reading(0, true) else Reading(value, false))
      && DeviceAfter(DeviceAfter(device, request), request) == DeviceAfter(device, request)
  {
    hide Wire, Parse;
    var request := Request(hub, TYPE_SET, NullBit(isNull), reg, value, guard);
    ReadsBack(key, request);
    ReadsBack(key, Replies(device, self, request)[0]);
    NullSurvives(isNull, guard);
    WrittenOnce(device, request);
    FlagsCarryGuardAndNull(NullBit(isNull), GuardByte(guard), 0);
    FlagsCarryGuardAndNull(request.flags, 0, 0);
    GuardByteTruncatesAndClamps(guard);
    assert Assigned(request) == if isNull then Reading(0, true) else Reading(value, false);
    hide GuardMillis, AckFlags, FlagsWithGuard, GuardByte, NullBit, DeviceAfter, Read, Assigned, HasNull;
  }

  lemma ReadsBack(key: Xtea.Key, m: Message)
    ensures Parse(key, Wire(key, m)) == Decoded(m)
  {
    hide Wire, Parse;
    DecodeEncode(key, m, []);
    assert Wire(key, m) + [] == Wire(key, m);
  }
}
