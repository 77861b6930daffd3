/** One RF channel of the hub as a state machine: the transact goroutines of
    lib/site/engine/engine.go, the radios they use, and the requests and replies on
    their way. A step is one gate operation, one Send, one case of a select, one part
    of a node's Poll as far as packets are concerned, or an event from outside.

    Nothing here assumes a well-behaved link: requests and replies may be lost, delayed
    without bound or delivered to another radio, and a drain may stop while packets are
    waiting. The theorems name the behaviour they need. */
module Channel {
  import opened Options
  import opened Turnaround

  type Addr = nat
  type Reg = nat
  type RadioId = nat
  type Tid = nat  // one call of Get, Set or SetNull
  type Rid = nat  // one Send that succeeded: an index into the history of requests

  datatype Update = Update(value: int, isNull: bool)

  datatype Op = Get | Set(update: Update)

  datatype Call = Call(addr: Addr, reg: Reg, op: Op)

  datatype Outcome = SuccessFirst | SuccessRetry | TimedOut | SendError | Canceled | NoRadio

  // What a call returns. The cause is history: a packet carries no token, so nothing
  // in the protocol can look at it.
  datatype Result =
    | Failed(outcome: Outcome)
    | Succeeded(outcome: Outcome, update: Update, cause: Rid)

  // What remains to be done once a drain has ended.
  datatype After =
    | Return(result: Result)  // the outcome is already recorded
    | ReturnCanceled
    | ReturnExpired

  datatype Pc =
    | Queued
    | Owner
    | LoopHead(radio: RadioId, attempt: nat, sent: bool)
    | Waiting(radio: RadioId, attempt: nat, deadline: int)
    | Draining(radio: RadioId, until: int, after: After)
    | Done(result: Result)
    | Refused  // returned without a trace: the node is unknown
  {
    // The call has received the gate token and not yet given it back.
    predicate Owning() { Owner? || LoopHead? || Waiting? || Draining? }
  }

  datatype Txn = Txn(call: Call, canceled: bool, started: int, pc: Pc)

  // How far a request has got. It is handled at most once and answered at most once.
  datatype Stage =
    | InFlight
    | AtNode(update: Update)
    | InAir(update: Update)
    | Heard(update: Update)

  // A request as sent, with history: who sent it, through which radio, and when.
  datatype Req = Req(owner: Tid, call: Call, radio: RadioId, sentAt: int, stage: Stage)

  datatype Junk = BadVersion | BadType

  // What a radio hands over: a node's reply to some request, or bytes under some
  // plaintext source that decode to no VALUE or ACK.
  datatype Packet = Reply(rid: Rid) | Noise(src: Addr, junk: Junk)

  datatype Radio = Radio(guard: int, closed: bool, received: seq<Packet>) {
    // Receiving from a closed channel reports it closed once the buffer is empty.
    predicate Exhausted() { closed && received == [] }
  }

  // known is the set of added nodes. gate is the token in the one-slot channel; holder
  // and base are history: the call that has the token, and how many requests had been
  // sent when it took it.
  datatype Lane = Lane(
    timeout: int, retries: nat, known: set<Addr>, now: int,
    radios: map<RadioId, Radio>, reqs: seq<Req>,
    radio: Option<RadioId>, gate: bool, holder: Option<Tid>, base: nat,
    txns: map<Tid, Txn>)

  datatype Step =
    // the surroundings
    | Tick(elapsed: nat)
    | Cancel(t: Tid)
    | AddRadio(r: RadioId, guard: int)
    | CloseRadio(r: RadioId)
    | Deliver(rid: Rid, r: RadioId)
    | MakeNoise(r: RadioId, src: Addr, junk: Junk)
    // a node's Poll, and its device
    | NodeReceive(rid: Rid, answer: Update)
    | NodeReply(rid: Rid)
    | NodeWrite(rid: Rid)
    | DeviceChange(a: Addr, reg: Reg, update: Update)
    // a transact goroutine
    | Start(t: Tid, call: Call, canceled: bool)
    | LeaveQueue(t: Tid)
    | TakeGate(t: Tid)
    | Begin(t: Tid)
    | Attempt(t: Tid, ok: bool)
    | WaitPacket(t: Tid)
    | WaitCancel(t: Tid)
    | WaitExpire(t: Tid)
    | DrainPacket(t: Tid)
    | DrainEnd(t: Tid)

  // inspectPacket's test: source, register and type agree, where VALUE answers GET and
  // ACK answers SET.
  predicate Matches(reply: Call, want: Call) {
    reply.addr == want.addr && reply.reg == want.reg && (reply.op.Get? <==> want.op.Get?)
  }

  // ---------- what is possible ----------

  predicate Pops(l: Lane, r: RadioId) {
    r in l.radios && l.radios[r].received != [] &&
    (l.radios[r].received[0].Reply? ==>
       var rid := l.radios[r].received[0].rid;
       rid < |l.reqs| && l.reqs[rid].stage.Heard?)
  }

  predicate Enabled(l: Lane, s: Step) {
    match s
    case Tick(_) => true
    case Cancel(t) => t in l.txns
    case AddRadio(r, guard) => Accepted(guard, l.timeout) && (r in l.radios ==> l.radios[r].guard == guard)
    case CloseRadio(r) => r in l.radios
    case Deliver(rid, r) => rid < |l.reqs| && l.reqs[rid].stage.InAir? && r in l.radios && !l.radios[r].closed
    case MakeNoise(r, _, _) => r in l.radios && !l.radios[r].closed
    case NodeReceive(rid, _) => rid < |l.reqs| && l.reqs[rid].stage.InFlight?
    case NodeReply(rid) => rid < |l.reqs| && l.reqs[rid].stage.AtNode?
    case NodeWrite(rid) => rid < |l.reqs|
    case DeviceChange(_, _, _) => true
    case Start(t, _, _) => t !in l.txns
    case LeaveQueue(t) => t in l.txns && l.txns[t].pc.Queued? && l.txns[t].canceled
    case TakeGate(t) => t in l.txns && l.txns[t].pc.Queued? && l.gate
    case Begin(t) => t in l.txns && l.txns[t].pc.Owner? && l.radio.Some?
    case Attempt(t, _) => t in l.txns && l.txns[t].pc.LoopHead? && l.txns[t].pc.radio in l.radios
    case WaitPacket(t) => t in l.txns && l.txns[t].pc.Waiting? && Pops(l, l.txns[t].pc.radio)
    case WaitCancel(t) => t in l.txns && l.txns[t].pc.Waiting? && l.txns[t].canceled && l.txns[t].pc.radio in l.radios
    case WaitExpire(t) =>
      t in l.txns && l.txns[t].pc.Waiting? && l.txns[t].pc.radio in l.radios &&
      (l.now >= l.txns[t].pc.deadline || l.radios[l.txns[t].pc.radio].Exhausted())
    case DrainPacket(t) => t in l.txns && l.txns[t].pc.Draining? && Pops(l, l.txns[t].pc.radio)
    case DrainEnd(t) =>
      t in l.txns && l.txns[t].pc.Draining? && l.txns[t].pc.radio in l.radios &&
      (l.now >= l.txns[t].pc.until || l.radios[l.txns[t].pc.radio].Exhausted())
  }

  // ---------- what a step does ----------

  function SetPc(l: Lane, t: Tid, pc: Pc): Lane
    requires t in l.txns
  {
    l.(txns := l.txns[t := l.txns[t].(pc := pc)])
  }

  // The deferred send of the token, and the return.
  function Release(l: Lane, t: Tid, result: Result): Lane
    requires t in l.txns
  {
    SetPc(l, t, Done(result)).(gate := true, holder := None)
  }

  function StartDrain(l: Lane, t: Tid, r: RadioId, after: After): Lane
    requires t in l.txns && r in l.radios
  {
    SetPc(l, t, Draining(r, l.now + DrainInterval(l.radios[r].guard), after))
  }

  function SetStage(l: Lane, rid: Rid, stage: Stage): Lane
    requires rid < |l.reqs|
  {
    l.(reqs := l.reqs[rid := l.reqs[rid].(stage := stage)])
  }

  function Push(l: Lane, r: RadioId, p: Packet): Lane
    requires r in l.radios
  {
    l.(radios := l.radios[r := l.radios[r].(received := l.radios[r].received + [p])])
  }

  function Pop(l: Lane, r: RadioId): Lane
    requires r in l.radios && l.radios[r].received != []
  {
    l.(radios := l.radios[r := l.radios[r].(received := l.radios[r].received[1..])])
  }

  function Apply(l: Lane, s: Step): Lane
    requires Enabled(l, s)
  {
    match s
    case Tick(elapsed) => l.(now := l.now + elapsed)
    case Cancel(t) => l.(txns := l.txns[t := l.txns[t].(canceled := true)])
    case AddRadio(r, guard) => DoAddRadio(l, r, guard)
    case CloseRadio(r) => l.(radios := l.radios[r := l.radios[r].(closed := true)])
    case Deliver(rid, r) => Push(SetStage(l, rid, Heard(l.reqs[rid].stage.update)), r, Reply(rid))
    case MakeNoise(r, src, junk) => Push(l, r, Noise(src, junk))
    case NodeReceive(rid, answer) => SetStage(l, rid, AtNode(answer))
    case NodeReply(rid) => SetStage(l, rid, InAir(l.reqs[rid].stage.update))
    case NodeWrite(_) => l
    case DeviceChange(_, _, _) => l
    case Start(t, call, canceled) => DoStart(l, t, call, canceled)
    case LeaveQueue(t) => SetPc(l, t, Done(Failed(Canceled)))
    case TakeGate(t) => SetPc(l, t, Owner).(gate := false, holder := Some(t), base := |l.reqs|)
    case Begin(t) =>
      if l.txns[t].canceled then Release(l, t, Failed(Canceled)) else SetPc(l, t, LoopHead(l.radio.value, 0, false))
    case Attempt(t, ok) => DoAttempt(l, t, ok)
    case WaitPacket(t) => DoWaitPacket(l, t)
    case WaitCancel(t) => StartDrain(l, t, l.txns[t].pc.radio, ReturnCanceled)
    case WaitExpire(t) =>
      var Waiting(r, attempt, _) := l.txns[t].pc;
      if attempt < l.retries then SetPc(l, t, LoopHead(r, attempt + 1, true)) else StartDrain(l, t, r, ReturnExpired)
    case DrainPacket(t) => Pop(l, l.txns[t].pc.radio)
    case DrainEnd(t) => Release(l, t, AfterDrain(l.txns[t]))
  }

  // A channel's first radio creates its lane with the token in it; a later one only
  // replaces the radio.
  function DoAddRadio(l: Lane, r: RadioId, guard: int): Lane {
    l.(radio := Some(r),
       gate := l.gate || l.radio.None?,
       radios := if r in l.radios then l.radios else l.radios[r := Radio(guard, false, [])])
  }

  // From the entry of transact to the select on the gate.
  function DoStart(l: Lane, t: Tid, call: Call, canceled: bool): Lane
    requires t !in l.txns
  {
    var pc :=
      if call.addr !in l.known then Refused
      else if l.radio.None? then Done(Failed(NoRadio))
      else if canceled then Done(Failed(Canceled))
      else Queued;
    l.(txns := l.txns[t := Txn(call, canceled, l.now, pc)])
  }

  // One turn of the retry loop up to the wait for a reply.
  function DoAttempt(l: Lane, t: Tid, ok: bool): Lane
    requires Enabled(l, Attempt(t, ok))
  {
    var Txn(call, canceled, _, LoopHead(r, attempt, sent)) := l.txns[t];
    if canceled then
      if sent then StartDrain(l, t, r, ReturnCanceled) else Release(l, t, Failed(Canceled))
    else if ok then
      SetPc(l.(reqs := l.reqs + [Req(t, call, r, l.now, InFlight)]), t, Waiting(r, attempt, l.now + l.timeout))
    else
      if sent then StartDrain(l, t, r, Return(Failed(SendError))) else Release(l, t, Failed(SendError))
  }

  // The reply at the head of the radio's buffer completes the call.
  predicate Completes(l: Lane, t: Tid)
    requires Enabled(l, WaitPacket(t))
  {
    var p := l.radios[l.txns[t].pc.radio].received[0];
    p.Reply? && Matches(l.reqs[p.rid].call, l.txns[t].call)
  }

  function Completion(l: Lane, t: Tid): Result
    requires Enabled(l, WaitPacket(t)) && Completes(l, t)
  {
    var rid := l.radios[l.txns[t].pc.radio].received[0].rid;
    Succeeded(if l.txns[t].pc.attempt > 0 then SuccessRetry else SuccessFirst, l.reqs[rid].stage.update, rid)
  }

  function DoWaitPacket(l: Lane, t: Tid): Lane
    requires Enabled(l, WaitPacket(t))
  {
    var r := l.txns[t].pc.radio;
    if !Completes(l, t) then Pop(l, r)
    else if l.txns[t].pc.attempt > 0 then StartDrain(Pop(l, r), t, r, Return(Completion(l, t)))
    else Release(Pop(l, r), t, Completion(l, t))
  }

  function AfterDrain(txn: Txn): Result
    requires txn.pc.Draining?
  {
    match txn.pc.after
    case Return(result) => result
    case ReturnCanceled => Failed(Canceled)
    case ReturnExpired => if txn.canceled then Failed(Canceled) else Failed(TimedOut)
  }

  // ---------- what a step leaves alone ----------

  // The steps of the surroundings and of the nodes.
  predicate Outside(s: Step) {
    s.Tick? || s.CloseRadio? || s.Deliver? || s.MakeNoise? || s.NodeReceive? || s.NodeReply? || s.NodeWrite?
    || s.DeviceChange?
  }

  // The steps of a transact goroutine.
  predicate OfCall(s: Step) {
    s.Start? || s.LeaveQueue? || s.TakeGate? || s.Begin? || s.Attempt? || s.WaitPacket? || s.WaitCancel?
    || s.WaitExpire? || s.DrainPacket? || s.DrainEnd?
  }

  // The request, or the reply to it, gets on.
  predicate Moves(s: Step, rid: Rid) {
    (s.NodeReceive? || s.NodeReply? || s.Deliver?) && s.rid == rid
  }

  lemma OutsideStep(l: Lane, s: Step)
    requires Enabled(l, s) && Outside(s)
    ensures var l' := Apply(l, s);
      && l' == l.(now := l'.now, radios := l'.radios, reqs := l'.reqs)
      && l'.now >= l.now && |l'.reqs| == |l.reqs| && l'.radios.Keys == l.radios.Keys
      && (forall r | r in l.radios :: l'.radios[r].guard == l.radios[r].guard)
      && (forall i | 0 <= i < |l.reqs| :: l'.reqs[i] == l.reqs[i].(stage := l'.reqs[i].stage))
      && (forall i | 0 <= i < |l.reqs| && !Moves(s, i) :: l'.reqs[i] == l.reqs[i])
  {
  }

  // A send is the only step that adds a request.
  predicate Sends(l: Lane, s: Step)
    requires Enabled(l, s)
  {
    s.Attempt? && s.ok && !l.txns[s.t].canceled
  }

  function Sent(l: Lane, s: Step): Req
    requires Enabled(l, s) && Sends(l, s)
  {
    Req(s.t, l.txns[s.t].call, l.txns[s.t].pc.radio, l.now, InFlight)
  }

  // A call moves itself and nobody else, takes packets from a radio's buffer, and
  // otherwise touches only the gate.
  lemma CallStep(l: Lane, s: Step)
    requires Enabled(l, s) && OfCall(s)
    ensures var l' := Apply(l, s);
      && s.t in l'.txns
      && l' == l.(radios := l'.radios, reqs := l'.reqs, gate := l'.gate, holder := l'.holder, base := l'.base,
                  txns := l.txns[s.t := l'.txns[s.t]])
      && l'.reqs == l.reqs + (if Sends(l, s) then [Sent(l, s)] else [])
      && (if s.Start? then s.t !in l.txns && l'.txns[s.t].call == s.call
          else s.t in l.txns && l'.txns[s.t] == l.txns[s.t].(pc := l'.txns[s.t].pc))
      && (!s.WaitPacket? && !s.DrainPacket? ==> l'.radios == l.radios)
  {
    if s.Attempt? {
      AttemptStep(l, s);
      hide Apply, Enabled;
    } else if s.WaitPacket? {
      WaitPacketStep(l, s.t);
      hide Apply, Enabled;
    }
  }

  lemma AttemptStep(l: Lane, s: Step)
    requires Enabled(l, s) && s.Attempt?
    ensures var l' := Apply(l, s);
      && s.t in l.txns && s.t in l'.txns
      && l' == l.(reqs := l'.reqs, gate := l'.gate, holder := l'.holder, txns := l.txns[s.t := l'.txns[s.t]])
      && l'.reqs == l.reqs + (if Sends(l, s) then [Sent(l, s)] else [])
      && l'.txns[s.t] == l.txns[s.t].(pc := l'.txns[s.t].pc)
  {
  }

  lemma WaitPacketStep(l: Lane, t: Tid)
    requires Enabled(l, WaitPacket(t))
    ensures var l' := Apply(l, WaitPacket(t));
      && t in l.txns && t in l'.txns
      && l' == l.(radios := l'.radios, gate := l'.gate, holder := l'.holder, txns := l.txns[t := l'.txns[t]])
      && l'.radios == Pop(l, l.txns[t].pc.radio).radios
      && l'.txns[t] == l.txns[t].(pc := l'.txns[t].pc)
  {
  }

  // ---------- runs ----------

  predicate Initial(l: Lane) {
    && l.radios == map[] && l.reqs == [] && l.txns == map[]
    && l.radio.None? && !l.gate && l.holder.None? && l.base == 0
  }

  // What isolation needs of the link: a reply reaches the radio that sent its request;
  // it does so within the drain interval of the request; and a drain takes the packets
  // that are already there before it obeys its timer.
  datatype Condition = Locality | Timeliness | DrainFirst

  predicate Keeps(l: Lane, s: Step, c: Condition)
    requires Enabled(l, s)
  {
    match (s, c)
    case (Deliver(rid, r), Locality) => r == l.reqs[rid].radio
    case (Deliver(rid, _), Timeliness) =>
      l.reqs[rid].radio in l.radios ==>
        l.now < l.reqs[rid].sentAt + DrainInterval(l.radios[l.reqs[rid].radio].guard)
    case (DrainEnd(t), DrainFirst) => l.radios[l.txns[t].pc.radio].received == []
    case _ => true
  }

  predicate Prompt(l: Lane, s: Step)
    requires Enabled(l, s)
  {
    Keeps(l, s, Locality) && Keeps(l, s, Timeliness) && Keeps(l, s, DrainFirst)
  }

  // A run from an initial state, its steps in any order the states allow.
  datatype Run = First(start: Lane) | Then(run: Run, step: Step) {
    predicate Valid()
      decreases this, 0
    {
      match this
      case First(start) => Initial(start)
      case Then(run, step) => run.Valid() && Enabled(run.Last(), step)
    }

    function Last(): Lane
      requires Valid()
      decreases this, 1
    {
      match this
      case First(start) => start
      case Then(run, step) => Apply(run.Last(), step)
    }

    predicate AllKeep(c: Condition)
      requires Valid()
    {
      match this
      case First(_) => true
      case Then(run, step) => run.AllKeep(c) && Keeps(run.Last(), step, c)
    }

    predicate AllPrompt()
      requires Valid()
    {
      AllKeep(Locality) && AllKeep(Timeliness) && AllKeep(DrainFirst)
    }

    predicate Extends(earlier: Run) {
      this == earlier || (Then? && run.Extends(earlier))
    }
  }
}
