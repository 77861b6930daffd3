/** The two views of a node's Poll in lib/node/node.go: what it does with the bytes of a
    request (Firmware) is what the steps of the node on the lane assume (Registers). */
module Polling {
  import opened Firmware
  import opened Protocol
  import Channel
  import Registers
  import Xtea

  // An int32 by its bit pattern.
  function Signed(v: Int32): int {
    if v as int < 0x8000_0000 then v as int else v as int - 0x1_0000_0000
  }

  // It is the value in the range of an int32 that agrees with the pattern modulo 2^32.
  lemma SignedIs(v: Int32)
    ensures -0x8000_0000 <= Signed(v) < 0x8000_0000
    ensures Signed(v) == v as int || Signed(v) == v as int - 0x1_0000_0000
    ensures Signed(0) == 0 && Signed(0xf8a432eb) == -123456789
  {
  }

  // What a packet says about a register.
  function Said(m: Message): Channel.Update {
    Channel.Update(Signed(m.value), HasNull(m.flags))
  }

  // The call that a request belongs to.
  function CallOf(node: Channel.Addr, m: Message): Channel.Call {
    Channel.Call(node, m.reg as int, if m.typ == TYPE_GET then Channel.Get else Channel.Set(Said(m)))
  }

  function UpdateOf(r: Reading): Channel.Update {
    if r.isNull then Registers.NULL else Channel.Update(Signed(r.value), false)
  }

  // The device's registers as the lane sees them.
  ghost predicate Shows(regs: map<Channel.Reg, Channel.Update>, device: Device) {
    forall reg: nat ::
      && (reg in regs <==> reg in device)
      && (reg in device ==> regs[reg] == UpdateOf(device[reg]))
  }

  // An idle node with this device, and a request on its way to it.
  ghost predicate AboutToPoll(w: Registers.World, rid: nat, node: Channel.Addr, device: Device, m: Message) {
    && node in w.nodes && w.nodes[node].poll.Idle? && Shows(w.nodes[node].regs, device)
    && rid < |w.lane.reqs| && w.lane.reqs[rid].stage.InFlight? && w.lane.reqs[rid].call == CallOf(node, m)
    && (m.typ == TYPE_GET || m.typ == TYPE_SET)
  }

  lemma ReadsTheSame(node: Registers.Node, device: Device, reg: bv16)
    requires Shows(node.regs, device)
    ensures node.Read(reg as int) == UpdateOf(Read(device, reg))
  {
    assert reg as int in node.regs <==> reg as int in device;
  }

  lemma ZeroIsZero()
    ensures Signed(0) == 0
  {
  }

  lemma NullIsSent(flags: Byte, isNull: bool)
    ensures HasNull(GuardFlags(flags) | NullBit(isNull)) <==> isNull
    ensures HasNull(AckFlags(flags)) <==> HasNull(flags)
  {
    FlagsCarryGuardAndNull(flags, 0, NullBit(isNull));
    hide GuardFlags;
  }

  // What the node has to answer.
  function Answer(device: Device, m: Message): Channel.Update {
    if m.typ == TYPE_GET then UpdateOf(Read(device, m.reg)) else Channel.Update(0, HasNull(m.flags))
  }

  // The hub finds it in the one reply, under the type and the register it waits for.
  lemma ReplySaysTheAnswer(device: Device, self: Addr, m: Message)
    requires m.typ == TYPE_GET || m.typ == TYPE_SET
    ensures |Replies(device, self, m)| == 1
    ensures var reply := Replies(device, self, m)[0];
      && Said(reply) == Answer(device, m) && reply.reg == m.reg && reply.src == self
      && (reply.typ == TYPE_VALUE <==> m.typ == TYPE_GET) && (reply.typ == TYPE_ACK <==> m.typ == TYPE_SET)
  {
    ZeroIsZero();
    NullIsSent(m.flags, Read(device, m.reg).isNull);
    hide HasNull, GuardFlags, AckFlags, NullBit, Read, Signed;
  }

  lemma ReceiveIsPossible(w: Registers.World, rid: nat, node: Channel.Addr, device: Device, m: Message)
    requires AboutToPoll(w, rid, node, device, m)
    ensures Registers.CanDo(w, Channel.NodeReceive(rid, Answer(device, m)))
  {
    hide HasNull, Read, Signed, UpdateOf, Shows;
    ReadsTheSame(w.nodes[node], device, m.reg);
  }

  lemma WrittenAlike(m: Message)
    ensures Registers.Written(Said(m)) == UpdateOf(Assigned(m))
  {
    hide HasNull, Signed;
  }

  lemma ShownAfter(regs: map<Channel.Reg, Channel.Update>, device: Device, m: Message)
    requires Shows(regs, device) && m.typ == TYPE_SET
    ensures Shows(regs[m.reg as int := UpdateOf(Assigned(m))], DeviceAfter(device, m))
  {
    hide UpdateOf, Assigned;
  }

  // The steps of the node for this request, in the order of Poll: receive and read, reply,
  // and after the ACK of a SET the write.
  function StepsOf(rid: nat, device: Device, m: Message): seq<Channel.Step> {
    [Channel.NodeReceive(rid, Answer(device, m)), Channel.NodeReply(rid)]
    + if m.typ == TYPE_SET then [Channel.NodeWrite(rid)] else []
  }

  predicate CanDoAll(w: Registers.World, steps: seq<Channel.Step>)
    decreases |steps|
  {
    steps == [] || (Registers.CanDo(w, steps[0]) && CanDoAll(Registers.Do(w, steps[0]), steps[1..]))
  }

  function DoAll(w: Registers.World, steps: seq<Channel.Step>): Registers.World
    requires CanDoAll(w, steps)
    decreases |steps|
  {
    if steps == [] then w else DoAll(Registers.Do(w, steps[0]), steps[1..])
  }

  // A node has begun to handle a request of a device that shows as this one.
  ghost predicate Handling(w: Registers.World, rid: nat, node: Channel.Addr, device: Device, m: Message) {
    && node in w.nodes && Shows(w.nodes[node].regs, device)
    && rid < |w.lane.reqs| && w.lane.reqs[rid].call == CallOf(node, m)
  }

  lemma Receives(w: Registers.World, rid: nat, node: Channel.Addr, device: Device, m: Message)
    requires AboutToPoll(w, rid, node, device, m)
    ensures var s := Channel.NodeReceive(rid, Answer(device, m));
      && Registers.CanDo(w, s)
      && var w' := Registers.Do(w, s);
         && Handling(w', rid, node, device, m) && w'.nodes[node].poll == Registers.Guarding(rid)
         && w'.lane.reqs[rid].stage == Channel.AtNode(Answer(device, m)) && w'.log == w.log
  {
    hide Shows, Answer;
    ReceiveIsPossible(w, rid, node, device, m);
  }

  lemma Replied(w: Registers.World, rid: nat, node: Channel.Addr, device: Device, m: Message, answer: Channel.Update)
    requires Handling(w, rid, node, device, m) && w.nodes[node].poll == Registers.Guarding(rid)
    requires w.lane.reqs[rid].stage == Channel.AtNode(answer)
    ensures var s := Channel.NodeReply(rid);
      && Registers.CanDo(w, s)
      && var w' := Registers.Do(w, s);
         && Handling(w', rid, node, device, m) && w'.lane.reqs[rid].stage == Channel.InAir(answer) && w'.log == w.log
         && w'.nodes[node].poll == if m.typ == TYPE_GET then Registers.Idle else Registers.Acked(rid)
  {
    hide Shows;
  }

  lemma Writes(w: Registers.World, rid: nat, node: Channel.Addr, device: Device, m: Message)
    requires Handling(w, rid, node, device, m) && w.nodes[node].poll == Registers.Acked(rid) && m.typ == TYPE_SET
    ensures var s := Channel.NodeWrite(rid);
      && Registers.CanDo(w, s)
      && var w' := Registers.Do(w, s);
         && Handling(w', rid, node, DeviceAfter(device, m), m) && w'.nodes[node].poll.Idle?
         && w'.lane == w.lane && w'.log == w.log + [Registers.Change(node, m.reg as int, UpdateOf(Assigned(m)))]
  {
    WrittenAlike(m);
    ShownAfter(w.nodes[node].regs, device, m);
    hide Shows, DeviceAfter, Assigned, UpdateOf, Registers.Written;
  }

  lemma OneStep(w: Registers.World, a: Channel.Step)
    requires Registers.CanDo(w, a)
    ensures CanDoAll(w, [a]) && DoAll(w, [a]) == Registers.Do(w, a)
  {
    hide Registers.CanDo, Registers.Do;
    assert CanDoAll(Registers.Do(w, a), []);
  }

  lemma TwoSteps(w: Registers.World, a: Channel.Step, b: Channel.Step)
    requires Registers.CanDo(w, a) && Registers.CanDo(Registers.Do(w, a), b)
    ensures CanDoAll(w, [a, b]) && DoAll(w, [a, b]) == Registers.Do(Registers.Do(w, a), b)
  {
    hide Registers.CanDo, Registers.Do;
    assert [a, b][1..] == [b];
    OneStep(Registers.Do(w, a), b);
  }

  lemma ThreeSteps(w: Registers.World, a: Channel.Step, b: Channel.Step, c: Channel.Step)
    requires Registers.CanDo(w, a) && Registers.CanDo(Registers.Do(w, a), b)
    requires Registers.CanDo(Registers.Do(Registers.Do(w, a), b), c)
    ensures CanDoAll(w, [a, b, c])
    ensures DoAll(w, [a, b, c]) == Registers.Do(Registers.Do(Registers.Do(w, a), b), c)
  {
    hide Registers.CanDo, Registers.Do;
    assert [a, b, c][1..] == [b, c];
    TwoSteps(Registers.Do(w, a), b, c);
  }

  // One Poll over the bytes of a GET or SET is those steps of the node on the lane: all of
  // them possible, in this order, and afterwards the node shows the device as Poll leaves it.
  lemma PollTakesItsSteps(w: Registers.World, rid: nat, node: Channel.Addr, device: Device, m: Message)
    requires AboutToPoll(w, rid, node, device, m)
    ensures CanDoAll(w, StepsOf(rid, device, m))
    ensures var w' := DoAll(w, StepsOf(rid, device, m));
      && Handling(w', rid, node, DeviceAfter(device, m), m) && w'.nodes[node].poll.Idle?
      && w'.lane.reqs[rid].stage == Channel.InAir(Answer(device, m))
      && w'.log == w.log +
           if m.typ == TYPE_SET then [Registers.Change(node, m.reg as int, UpdateOf(Assigned(m)))] else []
  {
    var answer := Answer(device, m);
    hide Answer, Registers.CanDo, Registers.Do, Shows, Assigned, UpdateOf;
    var receive, reply := Channel.NodeReceive(rid, answer), Channel.NodeReply(rid);
    Receives(w, rid, node, device, m);
    var w1 := Registers.Do(w, receive);
    Replied(w1, rid, node, device, m, answer);
    if m.typ == TYPE_GET {
      assert StepsOf(rid, device, m) == [receive, reply];
      TwoSteps(w, receive, reply);
    } else {
      hide DeviceAfter;
      Writes(Registers.Do(w1, reply), rid, node, device, m);
      assert StepsOf(rid, device, m) == [receive, reply, Channel.NodeWrite(rid)];
      ThreeSteps(w, receive, reply, Channel.NodeWrite(rid));
    }
  }

  // Poll sends one packet, where the node replies, and writes where the node writes; and
  // the hub decodes the answer of the node's step from it, for the call it belongs to.
  lemma PollSendsTheAnswer(key: Xtea.Key, device: Device, self: Addr, node: Channel.Addr, m: Message)
      returns (packet: seq<Byte>)
    requires m.typ == TYPE_GET || m.typ == TYPE_SET
    ensures Events(key, device, self, m) ==
      (if GuardMillis(m.flags) == 0 then [] else [Slept(GuardMillis(m.flags))]) + [Sent(m.src, packet)]
      + if m.typ == TYPE_SET then [Wrote(m.reg, m.value, HasNull(m.flags))] else []
    ensures Parse(key, packet).Decoded?
    ensures var reply := Parse(key, packet).message;
      && Said(reply) == Answer(device, m) && reply.src == self && reply.reg as int == CallOf(node, m).reg
      && reply.typ == if CallOf(node, m).op.Get? then TYPE_VALUE else TYPE_ACK
  {
    hide Wire, Parse, GuardMillis, Said, Answer, Replies, HasNull;
    ReplySaysTheAnswer(device, self, m);
    packet := Wire(key, Replies(device, self, m)[0]);
    ReadsBack(key, Replies(device, self, m)[0]);
  }
}
