/** The lane together with the nodes of lib/node/node.go and map-like devices behind
    them: what a GET returns, and what it returns after an acknowledged SET. */
module Registers {
  import opened Channel
  import opened Options
  import Ownership
  import Isolation

  // Where a node is in its Poll.
  datatype Poll =
    | Idle
    | Guarding(rid: Rid)  // request decoded, sleeping before the reply
    | Acked(rid: Rid)     // ACK sent, Device.Write still to come

  const NULL := Update(0, true)

  datatype Node = Node(poll: Poll, lastHandled: int, regs: map<Reg, Update>) {
    function Read(reg: Reg): Update {
      if reg in regs then regs[reg] else NULL
    }
  }

  // What a device has been told or has done by itself.
  datatype Change = Change(addr: Addr, reg: Reg, update: Update)

  datatype World = World(lane: Lane, nodes: map<Addr, Node>, log: seq<Change>)

  // A clear assignment leaves no value behind.
  function Written(update: Update): Update {
    if update.isNull then NULL else update
  }

  predicate CanDo(w: World, s: Step) {
    Enabled(w.lane, s) &&
    match s
    case NodeReceive(rid, answer) =>
      var call := w.lane.reqs[rid].call;
      call.addr in w.nodes && w.nodes[call.addr].poll.Idle? &&
      answer == (if call.op.Get? then w.nodes[call.addr].Read(call.reg) else Update(0, call.op.update.isNull))
    case NodeReply(rid) =>
      var call := w.lane.reqs[rid].call;
      call.addr in w.nodes && w.nodes[call.addr].poll == Guarding(rid)
    case NodeWrite(rid) =>
      var call := w.lane.reqs[rid].call;
      call.addr in w.nodes && w.nodes[call.addr].poll == Acked(rid) && call.op.Set?
    case DeviceChange(a, _, _) => a in w.nodes
    case _ => true
  }

  function Do(w: World, s: Step): World
    requires CanDo(w, s)
  {
    var lane := Apply(w.lane, s);
    match s
    case NodeReceive(rid, _) =>
      var a := w.lane.reqs[rid].call.addr;
      World(lane, w.nodes[a := w.nodes[a].(poll := Guarding(rid), lastHandled := rid)], w.log)
    case NodeReply(rid) =>
      var call := w.lane.reqs[rid].call;
      World(lane, w.nodes[call.addr := w.nodes[call.addr].(poll := if call.op.Get? then Idle else Acked(rid))], w.log)
    case NodeWrite(rid) =>
      var call := w.lane.reqs[rid].call;
      Assign(World(lane, w.nodes[call.addr := w.nodes[call.addr].(poll := Idle)], w.log), call.addr, call.reg,
             Written(call.op.update))
    case DeviceChange(a, reg, update) => Assign(w.(lane := lane), a, reg, Written(update))
    case _ => w.(lane := lane)
  }

  function Assign(w: World, a: Addr, reg: Reg, update: Update): World
    requires a in w.nodes
  {
    w.(nodes := w.nodes[a := w.nodes[a].(regs := w.nodes[a].regs[reg := update])],
       log := w.log + [Change(a, reg, update)])
  }

  datatype Trace = Opening(start: World) | Next(before: Trace, step: Step) {
    predicate Valid()
      decreases this, 0
    {
      match this
      case Opening(start) =>
        && Initial(start.lane) && start.log == []
        && forall a | a in start.nodes :: start.nodes[a] == Node(Idle, -1, map[])
      case Next(before, step) => before.Valid() && CanDo(before.Last(), step)
    }

    function Last(): World
      requires Valid()
      decreases this, 1
    {
      match this
      case Opening(start) => start
      case Next(before, step) => Do(before.Last(), step)
    }

    // The same run as the channel sees it.
    function OnLane(): Channel.Run {
      match this
      case Opening(start) => Channel.First(start.lane)
      case Next(before, step) => Channel.Then(before.OnLane(), step)
    }

    predicate Extends(earlier: Trace) {
      this == earlier || (Next? && before.Extends(earlier))
    }

    // Requests reach each node in the order they were sent, some of them never.
    predicate InOrder()
      requires Valid()
    {
      match this
      case Opening(_) => true
      case Next(before, step) => before.InOrder() && StepInOrder(before.Last(), step)
    }
  }

  predicate StepInOrder(w: World, s: Step)
    requires CanDo(w, s)
  {
    s.NodeReceive? ==> s.rid > w.nodes[w.lane.reqs[s.rid].call.addr].lastHandled
  }

  lemma {:induction false} LaneRun(trace: Trace)
    requires trace.Valid()
    ensures trace.OnLane().Valid() && trace.OnLane().Last() == trace.Last().lane
  {
    if trace.Next? {
      LaneRun(trace.before);
    }
  }

  // ---------- a GET returns what the device held while the call was on its way ----------

  // What the changes so far have left in a register.
  function Held(log: seq<Change>, a: Addr, reg: Reg): Update {
    if log == [] then NULL
    else
      var last := log[|log| - 1];
      if last.addr == a && last.reg == reg then last.update else Held(log[..|log| - 1], a, reg)
  }

  lemma {:induction false} DevicesHoldTheirHistory(trace: Trace, a: Addr, reg: Reg)
    requires trace.Valid() && a in trace.Last().nodes
    ensures trace.Last().nodes[a].Read(reg) == Held(trace.Last().log, a, reg)
  {
    if trace.Next? {
      DevicesHoldTheirHistory(trace.before, a, reg);
      var log, log' := trace.before.Last().log, trace.Last().log;
      assert log' == log || log' == log + [log'[|log|]];
      if log' != log {
        assert log'[..|log|] == log;
      }
    }
  }

  lemma LaneOf(w: World, s: Step)
    requires CanDo(w, s)
    ensures Do(w, s).lane == Apply(w.lane, s)
  {
    hide Apply, Enabled;
  }

  // How a request that is no longer in flight got there.
  predicate CameFrom(l: Lane, s: Step, rid: Rid, req: Req)
    requires !req.stage.InFlight?
  {
    && rid < |l.reqs|
    && if l.reqs[rid].stage.InFlight? then
         s == NodeReceive(rid, req.stage.update) && l.reqs[rid] == req.(stage := InFlight)
       else l.reqs[rid].stage.update == req.stage.update && l.reqs[rid].(stage := req.stage) == req
  }

  lemma AnswerOnLane(l: Lane, s: Step, rid: Rid)
    requires Enabled(l, s) && rid < |Apply(l, s).reqs| && !Apply(l, s).reqs[rid].stage.InFlight?
    ensures CameFrom(l, s, rid, Apply(l, s).reqs[rid])
  {
    if OfCall(s) {
      CallStep(l, s);
      hide Apply, Enabled;
    } else if Outside(s) && !Moves(s, rid) {
      OutsideStep(l, s);
      hide Apply, Enabled;
    }
  }

  // A request leaves the air at its node's NodeReceive, and keeps the answer it got there.
  lemma AnswerComesFromReceive(w: World, s: Step, rid: Rid)
    requires CanDo(w, s) && rid < |Do(w, s).lane.reqs| && !Do(w, s).lane.reqs[rid].stage.InFlight?
    ensures CameFrom(w.lane, s, rid, Do(w, s).lane.reqs[rid])
  {
    LaneOf(w, s);
    hide Apply, Do, CanDo, CameFrom;
    AnswerOnLane(w.lane, s, rid);
  }

  // An answered GET was read by its node: the run up to that moment.
  lemma {:induction false} AnswerWasRead(trace: Trace, rid: Rid) returns (upTo: Trace)
    requires trace.Valid() && rid < |trace.Last().lane.reqs| && !trace.Last().lane.reqs[rid].stage.InFlight?
    requires trace.Last().lane.reqs[rid].call.op.Get?
    ensures upTo.Valid() && trace.Extends(Next(upTo, NodeReceive(rid, trace.Last().lane.reqs[rid].stage.update)))
    ensures rid < |upTo.Last().lane.reqs|
    ensures var now, req := upTo.Last(), trace.Last().lane.reqs[rid];
      && now.lane.reqs[rid] == req.(stage := InFlight)
      && req.call.addr in now.nodes
      && now.nodes[req.call.addr].Read(req.call.reg) == req.stage.update
  {
    assert trace.Next?;
    AnswerComesFromReceive(trace.before.Last(), trace.step, rid);
    if trace.before.Last().lane.reqs[rid].stage.InFlight? {
      upTo := trace.before;
    } else {
      hide Do, CanDo;
      upTo := AnswerWasRead(trace.before, rid);
    }
  }

  // A call keeps the result it has, and keeps its success while it drains.
  lemma {:induction false} ResultsStay(trace: Trace, earlier: Trace, t: Tid)
    requires trace.Valid() && earlier.Valid() && trace.Extends(earlier) && t in earlier.Last().lane.txns
    ensures t in trace.Last().lane.txns
    ensures var was, now := earlier.Last().lane.txns[t].pc, trace.Last().lane.txns[t].pc;
      && (was.Done? ==> now == was)
      && (Isolation.Success(was).Some? ==> Isolation.Success(now) == Isolation.Success(was))
  {
    if trace != earlier {
      ResultsStay(trace.before, earlier, t);
      ResultStays(trace.before.Last().lane, trace.step, t);
      hide Apply, Enabled;
    }
  }

  lemma ResultStays(l: Lane, s: Step, t: Tid)
    requires Enabled(l, s) && t in l.txns
    ensures t in Apply(l, s).txns
    ensures var was, now := l.txns[t].pc, Apply(l, s).txns[t].pc;
      && (was.Done? ==> now == was)
      && (Isolation.Success(was).Some? ==> Isolation.Success(now) == Isolation.Success(was))
  {
    if OfCall(s) {
      if s.t == t {
        OwnResultStays(l, s);
      } else {
        CallStep(l, s);
      }
      hide Apply, Enabled, Isolation.Success;
    } else if Outside(s) {
      OutsideStep(l, s);
      hide Apply, Enabled;
    }
  }

  lemma OwnResultStays(l: Lane, s: Step)
    requires Enabled(l, s) && OfCall(s) && s.t in l.txns
    ensures s.t in Apply(l, s).txns && !l.txns[s.t].pc.Done?
    ensures Isolation.Success(l.txns[s.t].pc).Some? ==>
      Isolation.Success(Apply(l, s).txns[s.t].pc) == Isolation.Success(l.txns[s.t].pc)
  {
    if !l.txns[s.t].pc.Draining? {
      CallStep(l, s);
      hide Apply;
    }
  }

  lemma {:induction false} PromptSoFar(trace: Trace, earlier: Trace)
    requires trace.Valid() && earlier.Valid() && trace.Extends(earlier)
    requires trace.OnLane().Valid() && trace.OnLane().AllPrompt()
    ensures earlier.OnLane().Valid() && earlier.OnLane().AllPrompt()
  {
    if trace != earlier {
      PromptSoFar(trace.before, earlier);
    }
  }

  // The register held the result of a call when its node read it for one of the call's
  // own requests: after the call had sent it, and before the call had a result.
  ghost predicate ReadFor(trace: Trace, t: Tid, moment: Trace, cause: Rid)
    requires trace.Valid() && t in trace.Last().lane.txns && Isolation.Success(trace.Last().lane.txns[t].pc).Some?
  {
    && moment.Valid() && trace.Extends(moment)
    && cause < |moment.Last().lane.reqs| && moment.Last().lane.reqs[cause].owner == t
    && (t in moment.Last().lane.txns ==>
          !moment.Last().lane.txns[t].pc.Done? && Isolation.Success(moment.Last().lane.txns[t].pc).None?)
    && var call := trace.Last().lane.txns[t].call;
       Isolation.Success(trace.Last().lane.txns[t].pc).value.update == Held(moment.Last().log, call.addr, call.reg)
  }

  // Every successful GET returns what its register held at some moment after the call
  // had sent a request and before it had a result.
  lemma GetReturnsAHeldValue(trace: Trace, t: Tid)
    requires trace.Valid() && trace.OnLane().Valid() && trace.OnLane().AllPrompt()
    requires t in trace.Last().lane.txns && trace.Last().lane.txns[t].call.op.Get?
    requires Isolation.Success(trace.Last().lane.txns[t].pc).Some?
    ensures exists moment: Trace, cause: Rid :: ReadFor(trace, t, moment, cause)
  {
    LaneRun(trace);
    Isolation.SuccessIsOwn(trace.OnLane(), t);
    hide Do, CanDo, trace.OnLane;
    var cause := Isolation.Success(trace.Last().lane.txns[t].pc).value.cause;
    var moment := AnswerWasRead(trace, cause);
    var call := trace.Last().lane.txns[t].call;
    ExtendsLater(trace, moment, NodeReceive(cause, trace.Last().lane.reqs[cause].stage.update));
    DevicesHoldTheirHistory(moment, call.addr, call.reg);
    NoResultYet(trace, moment, t, cause);
    assert ReadFor(trace, t, moment, cause);
  }

  // While the request behind a success is still unanswered, the call has no result.
  lemma NoResultYet(trace: Trace, moment: Trace, t: Tid, cause: Rid)
    requires trace.Valid() && trace.OnLane().Valid() && trace.OnLane().AllPrompt()
    requires moment.Valid() && trace.Extends(moment) && t in trace.Last().lane.txns
    requires Isolation.Success(trace.Last().lane.txns[t].pc).Some?
    requires Isolation.Success(trace.Last().lane.txns[t].pc).value.cause == cause
    requires cause < |moment.Last().lane.reqs| && moment.Last().lane.reqs[cause].stage.InFlight?
    ensures t in moment.Last().lane.txns ==>
      !moment.Last().lane.txns[t].pc.Done? && Isolation.Success(moment.Last().lane.txns[t].pc).None?
  {
    hide Do, CanDo, trace.OnLane;
    if t in moment.Last().lane.txns {
      ResultsStay(trace, moment, t);
      PromptSoFar(trace, moment);
      LaneRun(moment);
      if Isolation.Success(moment.Last().lane.txns[t].pc).Some? {
        Isolation.SuccessIsOwn(moment.OnLane(), t);
        assert false;
      }
    }
  }

  lemma {:induction false} ExtendsLater(trace: Trace, earlier: Trace, s: Step)
    requires trace.Extends(Next(earlier, s))
    ensures trace.Extends(earlier)
  {
    if trace == Next(earlier, s) {
      assert trace.before.Extends(earlier);
    } else {
      ExtendsLater(trace.before, earlier, s);
    }
  }

  // ---------- a GET after an acknowledged SET returns what was set ----------

  // A node works on one request at a time, the latest one it has taken.
  ghost predicate OneAtATime(w: World) {
    forall a | a in w.nodes ::
      var node := w.nodes[a];
      && -1 <= node.lastHandled < |w.lane.reqs|
      && (!node.poll.Idle? ==>
            && node.lastHandled == node.poll.rid
            && w.lane.reqs[node.poll.rid].call.addr == a)
      && (node.poll.Guarding? ==> w.lane.reqs[node.poll.rid].stage.AtNode?)
      && (node.poll.Acked? ==> w.lane.reqs[node.poll.rid].call.op.Set?)
  }

  // And it takes them in the order of their sends.
  ghost predicate TakenInOrder(w: World) {
    forall i | 0 <= i < |w.lane.reqs| && !w.lane.reqs[i].stage.InFlight? ::
      w.lane.reqs[i].call.addr in w.nodes && i <= w.nodes[w.lane.reqs[i].call.addr].lastHandled
  }

  ghost predicate Serial(w: World) {
    OneAtATime(w) && TakenInOrder(w)
  }

  // What a register holds once the node has finished the SET it may be working on.
  function Settled(w: World, a: Addr, reg: Reg): Update
    requires a in w.nodes && (w.nodes[a].poll.Acked? ==> w.nodes[a].poll.rid < |w.lane.reqs|)
  {
    var node := w.nodes[a];
    if node.poll.Acked? && w.lane.reqs[node.poll.rid].call.op.Set? && w.lane.reqs[node.poll.rid].call.reg == reg
    then Written(w.lane.reqs[node.poll.rid].call.op.update)
    else node.Read(reg)
  }

  // A SET of this register.
  predicate Sets(call: Call, a: Addr, reg: Reg) {
    call.addr == a && call.reg == reg && call.op.Set?
  }

  // The register holds the value for good: it is settled, and every SET the node may
  // still act on repeats it.
  ghost predicate Stable(w: World, a: Addr, reg: Reg, value: Update) {
    && a in w.nodes && Serial(w) && Settled(w, a, reg) == value
    && forall i | 0 <= i < |w.lane.reqs| && i >= w.nodes[a].lastHandled && Sets(w.lane.reqs[i].call, a, reg) ::
         Written(w.lane.reqs[i].call.op.update) == value
  }

  // Whatever happens, requests keep all but their stage, and only a send adds one.
  lemma RequestsAfter(l: Lane, s: Step)
    requires Enabled(l, s)
    ensures |l.reqs| <= |Apply(l, s).reqs|
    ensures forall i | 0 <= i < |l.reqs| ::
      Apply(l, s).reqs[i] == l.reqs[i].(stage := Apply(l, s).reqs[i].stage)
    ensures forall i | 0 <= i < |l.reqs| && s != NodeReply(i) && !(s.NodeReceive? && s.rid == i) ::
      && (Apply(l, s).reqs[i].stage.InFlight? <==> l.reqs[i].stage.InFlight?)
      && (Apply(l, s).reqs[i].stage.AtNode? <==> l.reqs[i].stage.AtNode?)
    ensures |l.reqs| < |Apply(l, s).reqs| ==>
      && s.Attempt? && s.ok && |Apply(l, s).reqs| == |l.reqs| + 1
      && Apply(l, s).reqs[|l.reqs|].owner == s.t
      && Apply(l, s).reqs[|l.reqs|].call == l.txns[s.t].call
      && Apply(l, s).reqs[|l.reqs|].stage.InFlight?
    ensures s.NodeReceive? ==> Apply(l, s).reqs[s.rid].stage.AtNode?
  {
    if OfCall(s) {
      CallStep(l, s);
      hide Apply;
    } else if Outside(s) {
      OutsideStep(l, s);
    }
  }

  predicate OnNode(s: Step) {
    s.NodeReceive? || s.NodeReply? || s.NodeWrite?
  }

  // What a node's steps do, and when they are possible.
  lemma ReplyStep(w: World, rid: Rid)
    requires CanDo(w, NodeReply(rid))
    ensures rid < |w.lane.reqs| && w.lane.reqs[rid].stage.AtNode? && w.lane.reqs[rid].call.addr in w.nodes
    ensures var call := w.lane.reqs[rid].call;
      var node := w.nodes[call.addr];
      && node.poll == Guarding(rid)
      && Do(w, NodeReply(rid)) ==
           World(SetStage(w.lane, rid, InAir(w.lane.reqs[rid].stage.update)),
                 w.nodes[call.addr := node.(poll := if call.op.Get? then Idle else Acked(rid))], w.log)
  {
  }

  lemma SerialKeptByReceive(w: World, rid: Rid, answer: Update)
    requires Serial(w) && CanDo(w, NodeReceive(rid, answer)) && StepInOrder(w, NodeReceive(rid, answer))
    ensures Serial(Do(w, NodeReceive(rid, answer)))
  {
  }

  lemma SerialKeptByReply(w: World, rid: Rid)
    requires Serial(w) && CanDo(w, NodeReply(rid))
    ensures Serial(Do(w, NodeReply(rid)))
  {
    ReplyStep(w, rid);
    OneAtATimeKeptByReply(w, rid);
    hide Do, CanDo, Apply, Enabled, OneAtATime;
  }

  lemma OneAtATimeKeptByReply(w: World, rid: Rid)
    requires OneAtATime(w) && CanDo(w, NodeReply(rid))
    ensures OneAtATime(Do(w, NodeReply(rid)))
  {
    ReplyStep(w, rid);
    hide Do, CanDo, Apply, Enabled;
  }

  lemma SerialKeptByWrite(w: World, rid: Rid)
    requires Serial(w) && CanDo(w, NodeWrite(rid))
    ensures Serial(Do(w, NodeWrite(rid)))
  {
  }

  lemma SerialKeptByNode(w: World, s: Step)
    requires Serial(w) && CanDo(w, s) && StepInOrder(w, s) && OnNode(s)
    ensures Serial(Do(w, s))
  {
    hide Serial, CanDo, Do, StepInOrder;
    match s
    case NodeReceive(rid, answer) => SerialKeptByReceive(w, rid, answer);
    case NodeReply(rid) => SerialKeptByReply(w, rid);
    case NodeWrite(rid) => SerialKeptByWrite(w, rid);
  }

  // Only the calls, and what is still in flight or at its node, matter here.
  lemma SerialKeptOnLane(w: World, l: Lane)
    requires Serial(w) && |w.lane.reqs| <= |l.reqs|
    requires forall i | 0 <= i < |w.lane.reqs| ::
      && l.reqs[i].call == w.lane.reqs[i].call
      && (l.reqs[i].stage.InFlight? <==> w.lane.reqs[i].stage.InFlight?)
      && (l.reqs[i].stage.AtNode? <==> w.lane.reqs[i].stage.AtNode?)
    requires forall i | |w.lane.reqs| <= i < |l.reqs| :: l.reqs[i].stage.InFlight?
    ensures Serial(w.(lane := l))
  {
  }

  lemma SerialKeptByDevice(w: World, s: Step)
    requires Serial(w) && CanDo(w, s) && s.DeviceChange?
    ensures Serial(Do(w, s))
  {
    assert Apply(w.lane, s) == w.lane;
    hide Apply, Enabled, Written;
  }

  // Everything but the nodes and the devices.
  predicate OnLaneOnly(s: Step) {
    !OnNode(s) && !s.DeviceChange?
  }

  lemma LaneStep(w: World, s: Step)
    requires CanDo(w, s) && OnLaneOnly(s)
    ensures Do(w, s) == w.(lane := Apply(w.lane, s))
  {
    hide Apply, Enabled;
  }

  lemma SerialKeptElsewhere(w: World, s: Step)
    requires Serial(w) && CanDo(w, s) && !OnNode(s)
    ensures Serial(Do(w, s))
  {
    if s.DeviceChange? {
      SerialKeptByDevice(w, s);
    } else {
      RequestsAfter(w.lane, s);
      LaneStep(w, s);
      hide Apply, Enabled, Do, CanDo, Serial;
      SerialKeptOnLane(w, Apply(w.lane, s));
    }
  }

  lemma SerialKept(w: World, s: Step)
    requires Serial(w) && CanDo(w, s) && StepInOrder(w, s)
    ensures Serial(Do(w, s))
  {
    hide Serial, Do;
    if OnNode(s) {
      SerialKeptByNode(w, s);
    } else {
      SerialKeptElsewhere(w, s);
    }
  }

  // Changes of the register that no call asks for.
  predicate Meddles(s: Step, a: Addr, reg: Reg) {
    s.DeviceChange? && s.a == a && s.reg == reg
  }

  lemma SettledKeptOnLane(w: World, s: Step, a: Addr, reg: Reg)
    requires Serial(w) && CanDo(w, s) && a in w.nodes && OnLaneOnly(s)
    requires Serial(Do(w, s))
    ensures a in Do(w, s).nodes && Settled(Do(w, s), a, reg) == Settled(w, a, reg)
  {
    RequestsAfter(w.lane, s);
    LaneStep(w, s);
    hide Apply, Enabled, Do, CanDo;
  }

  lemma SettledKeptByDevice(w: World, s: Step, a: Addr, reg: Reg)
    requires Serial(w) && CanDo(w, s) && a in w.nodes && s.DeviceChange? && !Meddles(s, a, reg)
    requires Serial(Do(w, s))
    ensures a in Do(w, s).nodes && Settled(Do(w, s), a, reg) == Settled(w, a, reg)
  {
    assert Apply(w.lane, s) == w.lane;
    hide Apply, Enabled, Written;
  }

  lemma SettledKeptByReply(w: World, rid: Rid, a: Addr, reg: Reg)
    requires Serial(w) && CanDo(w, NodeReply(rid)) && a in w.nodes && !Sets(w.lane.reqs[rid].call, a, reg)
    requires Serial(Do(w, NodeReply(rid)))
    ensures a in Do(w, NodeReply(rid)).nodes && Settled(Do(w, NodeReply(rid)), a, reg) == Settled(w, a, reg)
  {
    ReplyStep(w, rid);
    hide Do, CanDo, Apply, Enabled, Written;
  }

  lemma SettledKeptByNode(w: World, s: Step, a: Addr, reg: Reg)
    requires Serial(w) && CanDo(w, s) && a in w.nodes && (s.NodeReceive? || s.NodeWrite?)
    requires Serial(Do(w, s))
    ensures a in Do(w, s).nodes && Settled(Do(w, s), a, reg) == Settled(w, a, reg)
  {
    OutsideStep(w.lane, s);
    hide Apply, Enabled, Written;
  }

  lemma SettledKept(w: World, s: Step, a: Addr, reg: Reg)
    requires Serial(w) && CanDo(w, s) && a in w.nodes && !Meddles(s, a, reg)
    requires s.NodeReply? ==> !Sets(w.lane.reqs[s.rid].call, a, reg)
    requires Serial(Do(w, s))
    ensures a in Do(w, s).nodes && Settled(Do(w, s), a, reg) == Settled(w, a, reg)
  {
    hide Serial, Do;
    if s.NodeReply? {
      SettledKeptByReply(w, s.rid, a, reg);
    } else if OnNode(s) {
      SettledKeptByNode(w, s, a, reg);
    } else if s.DeviceChange? {
      SettledKeptByDevice(w, s, a, reg);
    } else {
      SettledKeptOnLane(w, s, a, reg);
    }
  }

  lemma ReplySettles(w: World, rid: Rid, a: Addr, reg: Reg)
    requires Serial(w) && CanDo(w, NodeReply(rid)) && Sets(w.lane.reqs[rid].call, a, reg)
    requires Serial(Do(w, NodeReply(rid)))
    ensures Settled(Do(w, NodeReply(rid)), a, reg) == Written(w.lane.reqs[rid].call.op.update)
  {
  }

  predicate Answered(stage: Stage) {
    stage.InAir? || stage.Heard?
  }

  // Once a SET of a call that owns the lane has been answered, its node holds the value
  // or is about to.
  ghost predicate AnsweredSet(w: World, t: Tid, a: Addr, reg: Reg) {
    Ownership.Inv(w.lane) && Serial(w) &&
    (w.lane.holder == Some(t) && Sets(w.lane.txns[t].call, a, reg) ==>
       forall i | w.lane.base <= i < |w.lane.reqs| && Answered(w.lane.reqs[i].stage) ::
         a in w.nodes && Settled(w, a, reg) == Written(w.lane.txns[t].call.op.update))
  }

  // The call that owns the lane after a step owned it before, or has sent nothing yet.
  lemma OwnerAfter(l: Lane, s: Step)
    requires Ownership.Inv(l) && Enabled(l, s) && Apply(l, s).holder.Some?
    ensures var l' := Apply(l, s);
      && l'.holder.value in l'.txns
      && (l'.base == |l'.reqs|
          || (l'.holder == l.holder && l'.base == l.base
            && l'.txns[l'.holder.value].call == l.txns[l.holder.value].call))
  {
    hide Ownership.Consecutive, Ownership.Turn;
    if OfCall(s) && !s.TakeGate? {
      CallStep(l, s);
      KeepsTheGate(l, s);
      hide Apply, Enabled;
    } else if Outside(s) {
      OutsideStep(l, s);
      hide Apply, Enabled;
    }
  }

  lemma KeepsTheGate(l: Lane, s: Step)
    requires Enabled(l, s) && OfCall(s) && !s.TakeGate?
    ensures Apply(l, s).base == l.base && (Apply(l, s).holder == l.holder || Apply(l, s).holder.None?)
  {
  }

  // The owner's requests are those since it took the gate.
  lemma OwnerSent(l: Lane, i: Rid)
    requires Ownership.Inv(l) && l.holder.Some? && l.base <= i < |l.reqs|
    ensures l.holder.value in l.txns
    ensures l.reqs[i].owner == l.holder.value && l.reqs[i].call == l.txns[l.holder.value].call
  {
    hide Ownership.Consecutive;
  }

  // A node answers requests in the order it handles them.
  lemma AnswersInOrder(w: World, rid: Rid, i: Rid)
    requires Serial(w) && CanDo(w, NodeReply(rid)) && i < |w.lane.reqs|
    requires w.lane.reqs[i].call.addr == w.lane.reqs[rid].call.addr && !w.lane.reqs[i].stage.InFlight?
    ensures i <= rid
  {
    hide Enabled;
  }

  lemma AnsweredBefore(w: World, s: Step, i: Rid)
    requires CanDo(w, s) && i < |Apply(w.lane, s).reqs| && Answered(Apply(w.lane, s).reqs[i].stage)
    ensures i < |w.lane.reqs| && (Answered(w.lane.reqs[i].stage) || s == NodeReply(i))
    ensures Apply(w.lane, s).reqs[i].call == w.lane.reqs[i].call
  {
    RequestsAfter(w.lane, s);
    hide Apply, Enabled;
  }

  lemma AnsweredSetStep(w: World, s: Step, t: Tid, a: Addr, reg: Reg, i: Rid)
    requires AnsweredSet(w, t, a, reg) && CanDo(w, s) && !Meddles(s, a, reg)
    requires Serial(Do(w, s)) && w.lane.holder == Some(t) && Sets(w.lane.txns[t].call, a, reg)
    requires w.lane.base <= i < |Do(w, s).lane.reqs| && Answered(Do(w, s).lane.reqs[i].stage)
    ensures a in Do(w, s).nodes
    ensures Settled(Do(w, s), a, reg) == Written(w.lane.txns[t].call.op.update)
  {
    LaneOf(w, s);
    hide Apply, Do, CanDo, Ownership.Inv, Serial, Settled;
    AnsweredBefore(w, s, i);
    OwnerSent(w.lane, i);
    if s.NodeReply? && Sets(w.lane.reqs[s.rid].call, a, reg) {
      AnswersInOrder(w, s.rid, i);
      OwnerSent(w.lane, s.rid);
      ReplySettles(w, s.rid, a, reg);
    } else {
      SettledKept(w, s, a, reg);
    }
  }

  lemma AnsweredSetKept(w: World, s: Step, t: Tid, a: Addr, reg: Reg)
    requires AnsweredSet(w, t, a, reg) && CanDo(w, s) && StepInOrder(w, s)
    requires Meddles(s, a, reg) ==> HasNotSent(w.lane, t)
    ensures AnsweredSet(Do(w, s), t, a, reg)
  {
    Ownership.Preserved(w.lane, s);
    SerialKept(w, s);
    LaneOf(w, s);
    hide Apply, Do, CanDo, Ownership.Inv, Serial, Settled, HasNotSent, Answered, Sets;
    var w' := Do(w, s);
    if w'.lane.holder == Some(t) && Sets(w'.lane.txns[t].call, a, reg) && w'.lane.base < |w'.lane.reqs| {
      OwnerAfter(w.lane, s);
      if Meddles(s, a, reg) {
        MeddlingIsEarly(w, s, t);
      } else {
        forall i | w'.lane.base <= i < |w'.lane.reqs| && Answered(w'.lane.reqs[i].stage)
          ensures a in w'.nodes && Settled(w', a, reg) == Written(w'.lane.txns[t].call.op.update)
        {
          AnsweredSetStep(w, s, t, a, reg, i);
        }
      }
    }
  }

  ghost predicate HasNotSent(l: Lane, t: Tid) {
    forall i | 0 <= i < |l.reqs| :: l.reqs[i].owner != t
  }

  lemma MeddlingIsEarly(w: World, s: Step, t: Tid)
    requires Ownership.Inv(w.lane) && CanDo(w, s) && s.DeviceChange? && HasNotSent(w.lane, t)
    ensures Apply(w.lane, s).holder == Some(t) ==> Apply(w.lane, s).base == |Apply(w.lane, s).reqs|
  {
    assert Apply(w.lane, s) == w.lane;
    hide Apply, Enabled;
    if w.lane.holder == Some(t) && w.lane.base < |w.lane.reqs| {
      OwnerSent(w.lane, w.lane.base);
    }
    assert Ownership.Inv(w.lane) ==> w.lane.base <= |w.lane.reqs|;
  }

  // The moment an ACK completes a SET, the register holds the value for good.
  lemma AckMakesStable(w: World, t: Tid, a: Addr, reg: Reg)
    requires AnsweredSet(w, t, a, reg) && Isolation.Inv(w.lane)
    requires CanDo(w, WaitPacket(t)) && Completes(w.lane, t) && Sets(w.lane.txns[t].call, a, reg)
    ensures Stable(Do(w, WaitPacket(t)), a, reg, Written(w.lane.txns[t].call.op.update))
  {
    var value := Written(w.lane.txns[t].call.op.update);
    AckedIsSettled(w, t, a, reg);
    RequestsAfter(w.lane, WaitPacket(t));
    CallStep(w.lane, WaitPacket(t));
    SerialKeptElsewhere(w, WaitPacket(t));
    LaneStep(w, WaitPacket(t));
    hide Apply, Enabled, Isolation.Inv, Ownership.Inv, Serial, Settled, CanDo, Do;
    SettledKept(w, WaitPacket(t), a, reg);
  }

  // The ACK was sent for the call's own request, which its node has handled.
  lemma AckedIsSettled(w: World, t: Tid, a: Addr, reg: Reg)
    requires AnsweredSet(w, t, a, reg) && Isolation.Inv(w.lane)
    requires CanDo(w, WaitPacket(t)) && Completes(w.lane, t) && Sets(w.lane.txns[t].call, a, reg)
    ensures a in w.nodes && Settled(w, a, reg) == Written(w.lane.txns[t].call.op.update)
    ensures forall i | 0 <= i < |w.lane.reqs| && i >= w.nodes[a].lastHandled && Sets(w.lane.reqs[i].call, a, reg) ::
      Written(w.lane.reqs[i].call.op.update) == Written(w.lane.txns[t].call.op.update)
  {
    var l := w.lane;
    var rid := l.radios[l.txns[t].pc.radio].received[0].rid;
    Isolation.HeardIsOwn(l, t);
    WaiterOwns(l, t);
    assert rid <= w.nodes[a].lastHandled;
    hide Enabled, Isolation.Inv, Ownership.Inv;
    forall i | l.base <= i < |l.reqs| ensures l.reqs[i].call == l.txns[t].call {
      OwnerSent(l, i);
    }
  }

  lemma WaiterOwns(l: Lane, t: Tid)
    requires Isolation.Inv(l) && Enabled(l, WaitPacket(t))
    ensures Ownership.Inv(l) && l.holder == Some(t) && 0 <= l.base <= |l.reqs|
    ensures l.radios[l.txns[t].pc.radio].received[0].Reply? ==>
      l.reqs[l.radios[l.txns[t].pc.radio].received[0].rid].stage.Heard?
  {
    hide Ownership.Consecutive, Isolation.Apart;
  }

  // A send of a SET of this register.
  predicate SendsSet(w: World, s: Step, a: Addr, reg: Reg)
    requires CanDo(w, s)
  {
    s.Attempt? && s.ok && !w.lane.txns[s.t].canceled && Sets(w.lane.txns[s.t].call, a, reg)
  }

  lemma StableKept(w: World, s: Step, a: Addr, reg: Reg, value: Update)
    requires Stable(w, a, reg, value) && CanDo(w, s) && StepInOrder(w, s)
    requires !Meddles(s, a, reg) && !SendsSet(w, s, a, reg)
    ensures Stable(Do(w, s), a, reg, value)
  {
    SerialKept(w, s);
    RequestsAfter(w.lane, s);
    if s.NodeReply? && Sets(w.lane.reqs[s.rid].call, a, reg) {
      ReplySettles(w, s.rid, a, reg);
    } else {
      SettledKept(w, s, a, reg);
    }
    NoNewSet(w, s, a, reg);
    hide Apply, Enabled;
  }

  lemma NoNewSet(w: World, s: Step, a: Addr, reg: Reg)
    requires CanDo(w, s) && !SendsSet(w, s, a, reg)
    ensures forall i | |w.lane.reqs| <= i < |Do(w, s).lane.reqs| :: !Sets(Do(w, s).lane.reqs[i].call, a, reg)
  {
    RequestsAfter(w.lane, s);
    hide Apply;
  }

  // Every answer so far to a GET of the register sent from mark on is the value.
  ghost predicate FreshAnswers(w: World, a: Addr, reg: Reg, value: Update, mark: nat) {
    forall i | mark <= i < |w.lane.reqs| && w.lane.reqs[i].call == Call(a, reg, Get)
               && !w.lane.reqs[i].stage.InFlight? ::
      w.lane.reqs[i].stage.update == value
  }

  lemma FreshAnswersKept(w: World, s: Step, a: Addr, reg: Reg, value: Update, mark: nat)
    requires Stable(w, a, reg, value) && FreshAnswers(w, a, reg, value, mark) && CanDo(w, s)
    ensures FreshAnswers(Do(w, s), a, reg, value, mark)
  {
    var w' := Do(w, s);
    forall i | mark <= i < |w'.lane.reqs| && w'.lane.reqs[i].call == Call(a, reg, Get)
      && !w'.lane.reqs[i].stage.InFlight?
      ensures w'.lane.reqs[i].stage.update == value
    {
      AnswerComesFromReceive(w, s, i);
    }
  }

  // From acked on, nobody sends a SET of the register and nothing else changes it.
  ghost predicate Undisturbed(trace: Trace, acked: Trace, a: Addr, reg: Reg)
    requires trace.Valid()
  {
    trace == acked ||
    (trace.Next? && Undisturbed(trace.before, acked, a, reg)
     && !SendsSet(trace.before.Last(), trace.step, a, reg) && !Meddles(trace.step, a, reg))
  }

  // The device does not change the register by itself once the call has sent its request.
  ghost predicate NoMeddlingSince(trace: Trace, t: Tid, a: Addr, reg: Reg)
    requires trace.Valid()
  {
    trace.Next? ==>
      && NoMeddlingSince(trace.before, t, a, reg)
      && (Meddles(trace.step, a, reg) ==> HasNotSent(trace.before.Last().lane, t))
  }

  lemma {:induction false} AnsweredSetHolds(trace: Trace, t: Tid, a: Addr, reg: Reg)
    requires trace.Valid() && trace.InOrder() && NoMeddlingSince(trace, t, a, reg)
    ensures AnsweredSet(trace.Last(), t, a, reg)
  {
    if trace.Opening? {
      Ownership.InitialInv(trace.start.lane);
      hide Ownership.Inv;
    } else {
      hide Do, CanDo, AnsweredSet, HasNotSent;
      AnsweredSetHolds(trace.before, t, a, reg);
      AnsweredSetKept(trace.before.Last(), trace.step, t, a, reg);
    }
  }

  lemma {:induction false} ValueStays(trace: Trace, acked: Trace, a: Addr, reg: Reg, value: Update, mark: nat)
    requires trace.Valid() && trace.InOrder() && acked.Valid() && Undisturbed(trace, acked, a, reg)
    requires Stable(acked.Last(), a, reg, value) && mark == |acked.Last().lane.reqs|
    ensures Stable(trace.Last(), a, reg, value) && FreshAnswers(trace.Last(), a, reg, value, mark)
  {
    if trace != acked {
      hide Do, CanDo, Stable, FreshAnswers;
      ValueStays(trace.before, acked, a, reg, value, mark);
      StableKept(trace.before.Last(), trace.step, a, reg, value);
      FreshAnswersKept(trace.before.Last(), trace.step, a, reg, value, mark);
    }
  }

  // Requests keep their owners, and an owner was there before its request.
  lemma {:induction false} OwnersStay(trace: Trace, acked: Trace, a: Addr, reg: Reg)
    requires trace.Valid() && acked.Valid() && Undisturbed(trace, acked, a, reg)
    ensures |acked.Last().lane.reqs| <= |trace.Last().lane.reqs|
    ensures forall i | 0 <= i < |acked.Last().lane.reqs| ::
      trace.Last().lane.reqs[i].owner == acked.Last().lane.reqs[i].owner
  {
    if trace != acked {
      OwnersStay(trace.before, acked, a, reg);
      RequestsAfter(trace.before.Last().lane, trace.step);
      hide Apply, Enabled;
    }
  }

  // A reply that is there now completes t, a SET of the register to the value.
  ghost predicate Acknowledges(before: Trace, t: Tid, a: Addr, reg: Reg, value: Update)
    requires before.Valid()
  {
    var w := before.Last();
    && CanDo(w, WaitPacket(t)) && Completes(w.lane, t) && Sets(w.lane.txns[t].call, a, reg)
    && value == Written(w.lane.txns[t].call.op.update)
  }

  lemma AcknowledgedIsStable(before: Trace, t: Tid, a: Addr, reg: Reg, value: Update)
    requires before.Valid() && before.OnLane().Valid() && before.OnLane().AllPrompt() && before.InOrder()
    requires NoMeddlingSince(before, t, a, reg) && Acknowledges(before, t, a, reg, value)
    ensures Next(before, WaitPacket(t)).Valid() && Stable(Next(before, WaitPacket(t)).Last(), a, reg, value)
  {
    LaneRun(before);
    AnsweredSetHolds(before, t, a, reg);
    Isolation.Reachable(before.OnLane());
    hide Do, Stable, AnsweredSet, Isolation.Inv;
    AckMakesStable(before.Last(), t, a, reg);
  }

  lemma RequestsSoFarHaveCallers(before: Trace, t: Tid)
    requires before.Valid() && CanDo(before.Last(), WaitPacket(t))
    ensures var later := Do(before.Last(), WaitPacket(t)).lane;
      forall i | 0 <= i < |later.reqs| :: later.reqs[i].owner in before.Last().lane.txns
  {
    LaneRun(before);
    Ownership.Reachable(before.OnLane());
    Ownership.OwnersAreKnown(before.Last().lane);
    RequestsAfter(before.Last().lane, WaitPacket(t));
    hide Apply, Enabled, Ownership.Inv;
  }

  // A call that begins after the acknowledgement rests on a request sent after it.
  lemma CauseIsLater(before: Trace, t: Tid, trace: Trace, getter: Tid, a: Addr, reg: Reg)
    requires trace.Valid() && trace.OnLane().Valid() && trace.OnLane().AllPrompt()
    requires Next(before, WaitPacket(t)).Valid() && Undisturbed(trace, Next(before, WaitPacket(t)), a, reg)
    requires getter !in before.Last().lane.txns && getter in trace.Last().lane.txns
    requires Isolation.Success(trace.Last().lane.txns[getter].pc).Some?
    ensures Isolation.Caused(trace.Last().lane, getter, trace.Last().lane.txns[getter].pc)
    ensures Isolation.Success(trace.Last().lane.txns[getter].pc).value.cause
      >= |Next(before, WaitPacket(t)).Last().lane.reqs|
  {
    hide Do, CanDo, Apply, Enabled, Undisturbed;
    RequestsSoFarHaveCallers(before, t);
    OwnersStay(trace, Next(before, WaitPacket(t)), a, reg);
    LaneRun(trace);
    Isolation.SuccessIsOwn(trace.OnLane(), getter);
  }

  lemma WhatWasSet(before: Trace, t: Tid, a: Addr, reg: Reg, value: Update)
    requires before.Valid() && Acknowledges(before, t, a, reg, value)
    ensures t in before.Last().lane.txns && before.Last().lane.txns[t].call.op.Set?
    ensures value ==
      var told := before.Last().lane.txns[t].call.op.update; if told.isNull then Update(0, true) else told
  {
    hide Completes;
  }

  // A GET that begins after a SET has been acknowledged, with no other SET of the
  // register in between, returns exactly what was set, however many copies of either
  // request the node has handled and although it acknowledges before it writes.
  lemma ReadAfterAcknowledgedSet(before: Trace, setter: Tid, trace: Trace, getter: Tid, a: Addr, reg: Reg,
                                 value: Update)
    requires trace.Valid() && trace.OnLane().Valid() && trace.OnLane().AllPrompt() && trace.InOrder()
    requires before.Valid() && before.OnLane().Valid() && before.OnLane().AllPrompt() && before.InOrder()
    requires NoMeddlingSince(before, setter, a, reg) && Acknowledges(before, setter, a, reg, value)
    requires Undisturbed(trace, Next(before, WaitPacket(setter)), a, reg)
    requires getter !in before.Last().lane.txns && getter in trace.Last().lane.txns
    requires trace.Last().lane.txns[getter].call == Call(a, reg, Get)
    requires Isolation.Success(trace.Last().lane.txns[getter].pc).Some?
    ensures Isolation.Success(trace.Last().lane.txns[getter].pc).value.update == value
    ensures setter in before.Last().lane.txns && before.Last().lane.txns[setter].call.op.Set?
    ensures Isolation.Success(trace.Last().lane.txns[getter].pc).value.update ==
      var told := before.Last().lane.txns[setter].call.op.update; if told.isNull then Update(0, true) else told
  {
    WhatWasSet(before, setter, a, reg, value);
    AcknowledgedIsStable(before, setter, a, reg, value);
    hide Do, CanDo, Apply, Enabled, Acknowledges, Stable, Undisturbed;
    var acked := Next(before, WaitPacket(setter));
    ValueStays(trace, acked, a, reg, value, |acked.Last().lane.reqs|);
    CauseIsLater(before, setter, trace, getter, a, reg);
  }
}
