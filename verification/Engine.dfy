/** The engine in the shape of lib/site/engine/engine.go: a table of nodes and counters,
    a channel with its gate and radio, and the retry loop of transact over them. What
    other goroutines, nodes and the air do between two actions of a call is an arbitrary
    script. Every state the class can reach is the end of a run of the channel, so what
    is proved about runs holds of it. */
module Engine {
  import opened Channel
  import opened Options
  import opened Turnaround
  import opened Accounting
  import Answers
  import Isolation
  import Ownership

  // What happens between two actions of a call, which ready case its next select
  // prefers, and whether its next Send succeeds.
  datatype Turn = Turn(steps: seq<Step>, prefer: Choice, sendOk: bool)
  datatype Choice = Timer | Context | Received

  // What transact hands back; Blocked is a call that is still waiting when the script
  // of the others ends.
  datatype Return =
    | Answer(update: Update)
    | ErrUnknownNode
    | ErrNoRadio
    | ErrCanceled
    | ErrSend
    | ErrTimeout
    | Blocked

  function ReturnOf(pc: Pc): Return {
    match pc
    case Refused => ErrUnknownNode
    case Done(Succeeded(_, update, _)) => Answer(update)
    case Done(Failed(NoRadio)) => ErrNoRadio
    case Done(Failed(Canceled)) => ErrCanceled
    case Done(Failed(SendError)) => ErrSend
    case Done(Failed(_)) => ErrTimeout
    case _ => Blocked
  }

  // The steps transact itself takes for a call.
  predicate Own(s: Step, t: Tid) {
    match s
    case Start(u, _, _) => u == t
    case LeaveQueue(u) => u == t
    case TakeGate(u) => u == t
    case Begin(u) => u == t
    case Attempt(u, _) => u == t
    case WaitPacket(u) => u == t
    case WaitCancel(u) => u == t
    case WaitExpire(u) => u == t
    case DrainPacket(u) => u == t
    case DrainEnd(u) => u == t
    case _ => false
  }

  lemma OthersLeaveACallAlone(l: Lane, s: Step, t: Tid)
    requires Enabled(l, s) && !Own(s, t) && t in l.txns
    ensures t in Apply(l, s).txns
    ensures Apply(l, s).txns[t].(canceled := false) == l.txns[t].(canceled := false)
  {
    if OfCall(s) {
      assert s.t != t;
      CallStep(l, s);
      hide Apply, Enabled;
    } else if Outside(s) {
      OutsideStep(l, s);
      hide Apply, Enabled;
    }
  }

  // Whatever the link does, a buffered reply has been heard.
  ghost predicate BufferedAreHeard(l: Lane) {
    forall r | r in l.radios :: AllHeard(l, l.radios[r].received)
  }

  ghost predicate AllHeard(l: Lane, received: seq<Packet>) {
    forall p | p in received :: p.Reply? ==> p.rid < |l.reqs| && l.reqs[p.rid].stage.Heard?
  }

  lemma RequestsStay(l: Lane, s: Step)
    requires Enabled(l, s)
    ensures |l.reqs| <= |Apply(l, s).reqs|
    ensures forall i | 0 <= i < |l.reqs| && l.reqs[i].stage.Heard? :: Apply(l, s).reqs[i].stage.Heard?
  {
    if OfCall(s) {
      CallStep(l, s);
      hide Apply, Enabled;
    } else if Outside(s) {
      OutsideStep(l, s);
    }
  }

  lemma HeardStays(l: Lane, s: Step)
    requires Enabled(l, s)
    ensures forall received :: AllHeard(l, received) ==> AllHeard(Apply(l, s), received)
  {
    hide Apply, Enabled;
    RequestsStay(l, s);
  }

  lemma BufferAfterPacket(l: Lane, s: Step, r: RadioId, p: Packet)
    requires Enabled(l, s) && (s.WaitPacket? || s.DrainPacket?)
    requires r in Apply(l, s).radios && p in Apply(l, s).radios[r].received
    ensures r in l.radios && p in l.radios[r].received
  {
    if s.WaitPacket? {
      WaitPacketStep(l, s.t);
      hide Apply;
    }
  }

  lemma BufferAfter(l: Lane, s: Step, r: RadioId, p: Packet)
    requires Enabled(l, s) && r in Apply(l, s).radios && p in Apply(l, s).radios[r].received
    ensures (r in l.radios && p in l.radios[r].received) || p.Noise? || s == Deliver(p.rid, r)
  {
    if s.WaitPacket? || s.DrainPacket? {
      BufferAfterPacket(l, s, r, p);
      hide Apply, Enabled;
    } else if OfCall(s) {
      CallStep(l, s);
      hide Apply, Enabled;
    }
  }

  lemma {:induction false} ReachableBuffers(run: Run)
    requires run.Valid()
    ensures BufferedAreHeard(run.Last())
  {
    if run.Then? {
      var l, s := run.run.Last(), run.step;
      ReachableBuffers(run.run);
      HeardStays(l, s);
      forall r, p | r in run.Last().radios && p in run.Last().radios[r].received && p.Reply?
        ensures p.rid < |run.Last().reqs| && run.Last().reqs[p.rid].stage.Heard?
      {
        BufferAfter(l, s, r, p);
        assert r in l.radios && p in l.radios[r].received ==> AllHeard(l, l.radios[r].received);
      }
    }
  }

  // How one turn of the retry loop ends.
  datatype Event = Matched(update: Update) | Expired | ContextDone | SendFailed | StillWaiting

  function ReturnAfter(event: Event, ended: bool): Return {
    if !ended then Blocked
    else match event
      case Matched(update) => Answer(update)
      case ContextDone => ErrCanceled
      case SendFailed => ErrSend
      case Expired => ErrTimeout
      case StillWaiting => Blocked
  }

  // The state and the counters that a run ends with.
  ghost predicate Records(run: Run, l: Lane, m: Ledger) {
    run.Valid() && run.Last() == l && m == LedgerOf(run)
  }

  lemma OneMoreStep(run: Run, l: Lane, m: Ledger, s: Step)
    requires Records(run, l, m) && Enabled(l, s)
    ensures Records(Then(run, s), Apply(l, s), Count(l, m, s))
  {
    hide Apply, Enabled, Count;
  }

  class Engine {
    const timeout: int
    const retries: nat
    const known: set<Addr>       // the nodes that have been added
    var metrics: Ledger          // their counters

    var gate: bool               // the token is in the channel's gate
    var radio: Option<RadioId>   // the channel's radio; None before the first AddRadio

    var now: int                 // the surroundings: clock, radios and requests sent
    var radios: map<RadioId, Radio>
    var reqs: seq<Req>

    var txns: map<Tid, Txn>      // where every goroutine is, and whether its context is done
    var holder: Option<Tid>
    var base: nat
    ghost var run: Run

    function View(): Lane
      reads this
    {
      Lane(timeout, retries, known, now, radios, reqs, radio, gate, holder, base, txns)
    }

    ghost predicate Valid()
      reads this
    {
      Records(run, View(), metrics)
    }

    constructor (timeout: int, retries: int, nodes: set<Addr>)
      ensures Valid() && run.First? && known == nodes
      ensures this.timeout > 0 && (timeout > 0 ==> this.timeout == timeout)
      ensures this.retries == if retries < 0 then 0 else retries
    {
      this.timeout := if timeout <= 0 then 50 * MILLISECOND else timeout;
      this.retries := if retries < 0 then 0 else retries;
      known := nodes;
      metrics := map a | a in nodes :: NewMetrics();
      gate, radio, holder, base := false, None, None, 0;
      now, radios, reqs, txns := 0, map[], [], map[];
      new;
      run := First(View());
    }

    // Registers or replaces the channel's radio, unless its guard is too large.
    method AddRadio(r: RadioId, guard: int) returns (accepted: bool)
      requires Valid() && (r in radios ==> radios[r].guard == guard)
      modifies this
      ensures Valid() && (accepted <==> guard + MIN_REPLY_HEADROOM <= timeout)
      ensures run == if accepted then Then(old(run), Step.AddRadio(r, guard)) else old(run)
      ensures if accepted then radio == Some(r) && gate == (old(gate) || old(radio).None?) && r in radios
              else radio == old(radio) && gate == old(gate)
      ensures txns == old(txns) && holder == old(holder)
    {
      hide Records;
      ghost var l, m := View(), metrics;
      if guard + MIN_REPLY_HEADROOM > timeout {
        return false;
      }
      CountsNothing(View(), metrics, Step.AddRadio(r, guard));
      hide Count;
      if r !in radios {
        radios := radios[r := Radio(guard, false, [])];
      }
      if radio.None? {
        gate := true;
      }
      radio := Some(r);
      Note(l, m, Step.AddRadio(r, guard));
      accepted := true;
    }

    // The node's counters as they are now; nothing at all for an unknown node.
    method Snapshot(addr: Addr) returns (stats: Metrics)
      requires Valid()
      ensures metrics == LedgerOf(run) && metrics.Keys == known
      ensures stats == if addr in known then LedgerOf(run)[addr] else NewMetrics()
    {
      CounterTables(run, View(), metrics, 0);
      stats := if addr in metrics then metrics[addr] else NewMetrics();
    }

    // ---------- the counters ----------

    method RecordOutcome(call: Call, outcome: Outcome)
      modifies this`metrics
      ensures metrics == AddOutcome(old(metrics), call, outcome)
    {
      if call.addr in metrics {
        var m := metrics[call.addr];
        metrics := metrics[call.addr := m.With(call.op.Get?, Bump(m.Of(call.op.Get?), outcome))];
      }
    }

    // ---------- the others ----------

    // Everybody and everything but this call takes some steps.
    method Interleave(t: Tid, steps: seq<Step>)
      requires Valid() && t in txns
      modifies this
      ensures Valid() && run.Extends(old(run)) && t in txns
      ensures txns[t].(canceled := false) == old(txns[t].(canceled := false))
    {
      for i := 0 to |steps|
        invariant Valid() && run.Extends(old(run)) && t in txns
        invariant txns[t].(canceled := false) == old(txns[t].(canceled := false))
      {
        if Enabled(View(), steps[i]) && !Own(steps[i], t) {
          OthersLeaveACallAlone(View(), steps[i], t);
          Take(steps[i]);
        }
      }
    }

    // One step of somebody else.
    method Take(s: Step)
      requires Valid() && Enabled(View(), s)
      modifies this
      ensures Valid() && run == Then(old(run), s)
    {
      hide Apply, Count, Enabled, LedgerOf, run.Valid, run.Last;
      ghost var l, m := View(), metrics;
      StepKeepsConstants(View(), s);
      var next := Apply(View(), s);
      metrics := Count(View(), metrics, s);
      Load(next);
      Note(l, m, s);
    }

    method Load(next: Lane)
      requires next.timeout == timeout && next.retries == retries && next.known == known
      modifies this`now, this`radios, this`reqs, this`radio, this`gate, this`holder, this`base, this`txns
      ensures View() == next
    {
      now, radios, reqs, radio, gate := next.now, next.radios, next.reqs, next.radio, next.gate;
      holder, base, txns := next.holder, next.base, next.txns;
    }

    // ---------- the actions of a call ----------

    // The history takes note of a step that the fields have already made.
    ghost method Note(l: Lane, m: Ledger, s: Step)
      requires Records(run, l, m) && Enabled(l, s) && View() == Apply(l, s) && metrics == Count(l, m, s)
      modifies this`run
      ensures Valid() && run == Then(old(run), s)
    {
      hide Apply, Enabled, Count, Records;
      OneMoreStep(run, l, m, s);
      run := Then(run, s);
    }

    method SetPc(t: Tid, pc: Pc)
      requires t in txns
      modifies this`txns
      ensures txns == old(txns)[t := old(txns[t]).(pc := pc)]
      ensures View() == Channel.SetPc(old(View()), t, pc)
    {
      txns := txns[t := txns[t].(pc := pc)];
    }

    // The deferred send of the token.
    method ReturnToken(t: Tid, result: Result)
      requires t in txns
      modifies this`txns, this`gate, this`holder
      ensures txns == old(txns)[t := old(txns[t]).(pc := Done(result))]
      ensures View() == Release(old(View()), t, result)
    {
      SetPc(t, Done(result));
      gate, holder := true, None;
    }

    // Looks up the node and its channel, and looks at the context once.
    method Enter(t: Tid, call: Call, canceled: bool)
      requires Valid() && t !in txns
      modifies this
      ensures Valid() && run == Then(old(run), Start(t, call, canceled))
      ensures t in txns && txns[t].call == call && radio == old(radio)
      ensures txns[t].pc ==
        if call.addr !in known then Refused
        else if radio.None? then Done(Failed(NoRadio))
        else if canceled then Done(Failed(Canceled)) else Queued
    {
      hide Records, AddOutcome;
      ghost var l, m := View(), metrics;
      StartEffect(View(), metrics, t, call, canceled);
      hide Apply, Count, Release, StartDrain, Channel.SetPc;
      var pc := Queued;
      if call.addr !in known {
        pc := Refused;
      } else if radio.None? {
        RecordOutcome(call, NoRadio);
        pc := Done(Failed(NoRadio));
      } else if canceled {
        RecordOutcome(call, Canceled);
        pc := Done(Failed(Canceled));
      }
      txns := txns[t := Txn(call, canceled, now, pc)];
      Note(l, m, Start(t, call, canceled));
    }

    // case <-ctx.Done() of the select on the gate
    method GiveUpQueue(t: Tid)
      requires Valid() && t in txns && txns[t].pc.Queued? && txns[t].canceled
      modifies this
      ensures Valid() && run == Then(old(run), LeaveQueue(t))
      ensures t in txns && txns[t] == old(txns[t]).(pc := Done(Failed(Canceled)))
    {
      hide Records, AddOutcome;
      ghost var l, m := View(), metrics;
      LeaveQueueEffect(View(), metrics, t);
      hide Apply, Count, Release, StartDrain, Channel.SetPc;
      RecordOutcome(txns[t].call, Canceled);
      SetPc(t, Done(Failed(Canceled)));
      Note(l, m, LeaveQueue(t));
    }

    // case <-channel.gate
    method ReceiveToken(t: Tid)
      requires Valid() && t in txns && txns[t].pc.Queued? && gate
      modifies this
      ensures Valid() && run == Then(old(run), TakeGate(t))
      ensures t in txns && txns[t] == old(txns[t]).(pc := Owner)
    {
      hide Records;
      ghost var l, m := View(), metrics;
      CountsNothing(View(), metrics, TakeGate(t));
      hide Count;
      gate, holder, base := false, Some(t), |reqs|;
      SetPc(t, Owner);
      Note(l, m, TakeGate(t));
    }

    // ctx.Err() once more, and getRadio.
    method Prepare(t: Tid)
      requires Valid() && t in txns && txns[t].pc.Owner? && radio.Some?
      modifies this
      ensures Valid() && run == Then(old(run), Begin(t))
      ensures t in txns && txns[t].call == old(txns[t].call) && txns[t].canceled == old(txns[t].canceled)
      ensures if txns[t].canceled then txns[t].pc == Done(Failed(Canceled))
              else txns[t].pc == LoopHead(old(radio).value, 0, false)
    {
      hide Records, AddOutcome;
      ghost var l, m := View(), metrics;
      BeginEffect(View(), metrics, t);
      hide Apply, Count, Release, StartDrain, Channel.SetPc;
      if txns[t].canceled {
        RecordOutcome(txns[t].call, Canceled);
        ReturnToken(t, Failed(Canceled));
      } else {
        SetPc(t, LoopHead(radio.value, 0, false));
      }
      Note(l, m, Begin(t));
    }

    method StartTimerOfDrain(t: Tid, r: RadioId, after: After)
      requires t in txns && r in radios
      modifies this`txns
      ensures txns == old(txns)[t := old(txns[t]).(pc := Draining(r, now + DrainInterval(radios[r].guard), after))]
      ensures View() == StartDrain(old(View()), t, r, after)
    {
      SetPc(t, Draining(r, now + DrainInterval(radios[r].guard), after));
    }

    // ctx.Err() at the head of the retry loop
    method CheckContext(t: Tid)
      requires Valid() && t in txns && txns[t].pc.LoopHead? && txns[t].pc.radio in radios && txns[t].canceled
      modifies this
      ensures Valid() && run == Then(old(run), Attempt(t, true))
      ensures t in txns && txns[t].call == old(txns[t].call)
      ensures if old(txns[t].pc.sent) then txns[t].pc.Draining? && txns[t].pc.after == ReturnCanceled
              else txns[t].pc == Done(Failed(Canceled))
    {
      hide Records, AddOutcome;
      ghost var l, m := View(), metrics;
      CheckEffect(View(), metrics, t);
      hide Apply, Count, Release, StartDrain, Channel.SetPc;
      if txns[t].pc.sent {
        StartTimerOfDrain(t, txns[t].pc.radio, ReturnCanceled);
      } else {
        RecordOutcome(txns[t].call, Canceled);
        ReturnToken(t, Failed(Canceled));
      }
      Note(l, m, Attempt(t, true));
    }

    method CountAttempt(call: Call, attempt: nat, ok: bool)
      modifies this`metrics
      ensures metrics == AddAttempt(old(metrics), call, attempt, ok)
    {
      if call.addr in metrics {
        var m := metrics[call.addr];
        var st := m.Of(call.op.Get?);
        if attempt == 0 {
          st := st.(initial := st.initial + 1);
        } else {
          st := st.(retry := st.retry + 1);
        }
        if ok {
          var packet := m.packet.(txSuccess := m.packet.txSuccess + 1);
          metrics := metrics[call.addr := m.With(call.op.Get?, st).(packet := packet)];
        } else {
          st := st.(sendError := st.sendError + 1);
          var packet := m.packet.(txError := m.packet.txError + 1);
          metrics := metrics[call.addr := m.With(call.op.Get?, st).(packet := packet)];
        }
      }
    }

    // One Send, counted before and after, and the timer of the wait or of a drain.
    method SendRequest(t: Tid, ok: bool)
      requires Valid() && t in txns && txns[t].pc.LoopHead? && txns[t].pc.radio in radios && !txns[t].canceled
      modifies this
      ensures Valid() && run == Then(old(run), Attempt(t, ok))
      ensures t in txns && txns[t].call == old(txns[t].call)
      ensures if ok then txns[t].pc.Waiting? && txns[t].pc.radio == old(txns[t].pc.radio)
                         && txns[t].pc.attempt == old(txns[t].pc.attempt)
              else if old(txns[t].pc.sent) then
                txns[t].pc.Draining? && txns[t].pc.after == After.Return(Failed(SendError))
              else txns[t].pc == Done(Failed(SendError))
    {
      hide Records, AddAttempt, AddOutcome;
      ghost var l, m := View(), metrics;
      SendEffect(View(), metrics, t, ok);
      hide Apply, Count, Release, StartDrain, Channel.SetPc;
      var Txn(call, _, _, LoopHead(r, attempt, sent)) := txns[t];
      CountAttempt(call, attempt, ok);
      if ok {
        reqs := reqs + [Req(t, call, r, now, InFlight)];
        SetPc(t, Waiting(r, attempt, now + timeout));
      } else {
        RecordOutcome(call, SendError);
        if sent {
          StartTimerOfDrain(t, r, After.Return(Failed(SendError)));
        } else {
          ReturnToken(t, Failed(SendError));
        }
      }
      Note(l, m, Attempt(t, ok));
    }

    // Counts a packet, and tells whether it is what the owner waits for.
    method InspectPacket(packet: Packet, want: Call, accept: bool) returns (update: Update, matched: bool)
      requires packet.Reply? ==> packet.rid < |reqs| && reqs[packet.rid].stage.Heard?
      modifies this`metrics
      ensures matched <==>
        && accept && packet.Reply? && packet.rid < |reqs| && want.addr in old(metrics)
        && reqs[packet.rid].call.addr == want.addr && reqs[packet.rid].call.reg == want.reg
        && (reqs[packet.rid].call.op.Get? <==> want.op.Get?)
      ensures matched ==> update == reqs[packet.rid].stage.update
      ensures metrics == AddPacket(old(metrics), reqs, packet, matched)
    {
      update, matched := Update(0, false), false;
      var src := Source(reqs, packet);
      if src !in metrics {
        return;
      }
      var p := metrics[src].packet;
      p := p.(rxTotal := p.rxTotal + 1);
      match packet {
        case Noise(_, BadVersion) =>
          p := p.(badDecode := p.badDecode + 1);
        case Noise(_, BadType) =>
          p := p.(badType := p.badType + 1);
        case Reply(rid) =>
          p := p.(rxValid := p.rxValid + 1);
          var Req(_, call, _, _, Heard(content)) := reqs[rid];
          update := content;
          matched := accept && call.addr == want.addr && call.reg == want.reg && call.op.Get? == want.op.Get?;
          if call.op.Get? {
            if update.isNull {
              p := p.(nullValue := p.nullValue + 1);
            }
            if matched {
              p := p.(matchedValue := p.matchedValue + 1);
            } else {
              p := p.(orphanValue := p.orphanValue + 1);
            }
          } else if matched {
            p := p.(matchedAck := p.matchedAck + 1);
          } else {
            p := p.(orphanAck := p.orphanAck + 1);
          }
      }
      metrics := metrics[src := metrics[src].(packet := p)];
    }

    method RecordTimeout(call: Call)
      modifies this`metrics
      ensures metrics == AddTimeout(old(metrics), call)
    {
      if call.addr in metrics {
        var m := metrics[call.addr];
        var st := m.Of(call.op.Get?);
        metrics := metrics[call.addr := m.With(call.op.Get?, st.(timeout := st.timeout + 1))];
      }
    }

    // case packet, ok := <-r.Received(), ok being true
    method Receive(r: RadioId) returns (packet: Packet)
      requires r in radios && radios[r].received != []
      modifies this`radios
      ensures packet == old(radios[r].received[0])
      ensures radios == old(radios)[r := old(radios[r]).(received := old(radios[r].received[1..]))]
    {
      packet := radios[r].received[0];
      radios := radios[r := radios[r].(received := radios[r].received[1..])];
    }

    method RecordSuccessLatency(call: Call, elapsed: int)
      modifies this`metrics
      ensures metrics == AddLatency(old(metrics), call, elapsed)
    {
      if call.addr in metrics {
        metrics := metrics[call.addr := Timed(metrics[call.addr], call.op.Get?, elapsed)];
      }
    }

    // A matched reply: the outcome, the latency, and the return or a drain before it.
    method Conclude(t: Tid, call: Call, started: int, r: RadioId, attempt: nat, result: Result)
      requires t in txns && r in radios && result.outcome == if attempt > 0 then SuccessRetry else SuccessFirst
      modifies this`metrics, this`txns, this`gate, this`holder
      ensures metrics == AddLatency(AddOutcome(old(metrics), call, result.outcome), call, now - started)
      ensures View() ==
        if attempt > 0 then StartDrain(old(View()), t, r, After.Return(result)) else Release(old(View()), t, result)
    {
      RecordOutcome(call, result.outcome);
      RecordSuccessLatency(call, now - started);
      if attempt > 0 {
        StartTimerOfDrain(t, r, After.Return(result));
      } else {
        ReturnToken(t, result);
      }
    }

    method ReadPacket(t: Tid) returns (update: Update, matched: bool, cause: Rid)
      requires Valid() && Enabled(View(), WaitPacket(t))
      modifies this`metrics, this`radios
      ensures View() == Pop(old(View()), txns[t].pc.radio)
      ensures metrics == AddPacket(old(metrics), reqs, old(radios[txns[t].pc.radio].received[0]), matched)
      ensures matched <==> old(Completes(View(), t))
      ensures matched ==>
        Succeeded(if txns[t].pc.attempt > 0 then SuccessRetry else SuccessFirst, update, cause) ==
          old(Completion(View(), t))
    {
      hide AddPacket, Records;
      CounterTables(run, View(), metrics, t);
      var packet := Receive(txns[t].pc.radio);
      update, matched := InspectPacket(packet, txns[t].call, true);
      cause := if packet.Reply? then packet.rid else 0;
    }

    // Counts the packet, and concludes the call if it matches.
    method ReadAndConclude(t: Tid) returns (update: Update, matched: bool)
      requires Valid() && Enabled(View(), WaitPacket(t))
      modifies this
      ensures Valid() && run == Then(old(run), WaitPacket(t)) && View() == old(Apply(View(), WaitPacket(t)))
      ensures matched <==> old(Completes(View(), t))
      ensures matched ==> update == old(Completion(View(), t)).update
    {
      hide Records, AddPacket, AddOutcome, AddLatency, ReturnOf;
      ghost var l, m := View(), metrics;
      PacketEffect(l, m, t);
      hide Apply, Count, Completes, Completion, StartDrain, Release, Pop;
      var Txn(call, _, started, Waiting(r, attempt, _)) := txns[t];
      var cause;
      update, matched, cause := ReadPacket(t);
      if matched {
        Conclude(t, call, started, r, attempt,
                 Succeeded(if attempt > 0 then SuccessRetry else SuccessFirst, update, cause));
      }
      Note(l, m, WaitPacket(t));
    }

    // A packet while the call waits; if it matches, the call is as good as done.
    method TakePacket(t: Tid) returns (update: Update, matched: bool)
      requires Valid() && Enabled(View(), WaitPacket(t))
      modifies this
      ensures Valid() && run == Then(old(run), WaitPacket(t))
      ensures var packet, want := old(radios[txns[t].pc.radio].received[0]), old(txns[t].call);
        && (packet.Reply? ==> packet.rid < |old(reqs)|)
        && (matched <==>
              (packet.Reply? && old(reqs)[packet.rid].call.addr == want.addr
               && old(reqs)[packet.rid].call.reg == want.reg
               && (old(reqs)[packet.rid].call.op.Get? <==> want.op.Get?)))
        && (matched ==> old(reqs)[packet.rid].stage == Heard(update))
      ensures t in txns && txns[t].call == old(txns[t].call)
      ensures var Waiting(r, attempt, _) := old(txns[t].pc);
        && r in old(radios) && r in radios && radios[r].received == old(radios[r].received[1..])
        && var pc := txns[t].pc;
           if !matched then pc == old(txns[t].pc)
           else if attempt > 0 then
             pc.Draining? && pc.after.Return? && ReturnOf(Done(pc.after.result)) == Answer(update)
           else pc.Done? && ReturnOf(pc) == Answer(update)
    {
      hide Records, Apply, Completes, Completion, ReturnOf;
      AfterPacket(View(), t);
      WhatCompletes(View(), t);
      update, matched := ReadAndConclude(t);
    }

    // case <-ctx.Done() of the wait
    method StopWaiting(t: Tid)
      requires Valid() && t in txns && txns[t].pc.Waiting? && txns[t].pc.radio in radios && txns[t].canceled
      modifies this
      ensures Valid() && run == Then(old(run), WaitCancel(t))
      ensures t in txns && txns[t].call == old(txns[t].call) && txns[t].pc.Draining?
        && txns[t].pc.after == ReturnCanceled
    {
      hide Records;
      ghost var l, m := View(), metrics;
      CountsNothing(View(), metrics, WaitCancel(t));
      hide Count;
      StartTimerOfDrain(t, txns[t].pc.radio, ReturnCanceled);
      Note(l, m, WaitCancel(t));
    }

    // case <-timer.C of the wait, or a closed radio: the next attempt, if there is one
    method GiveUpAttempt(t: Tid)
      requires Valid() && t in txns && txns[t].pc.Waiting? && txns[t].pc.radio in radios
      requires now >= txns[t].pc.deadline || radios[txns[t].pc.radio].Exhausted()
      modifies this
      ensures Valid() && run == Then(old(run), WaitExpire(t))
      ensures t in txns && txns[t].call == old(txns[t].call)
      ensures var was, pc := old(txns[t].pc), txns[t].pc;
        if was.attempt < retries then pc == LoopHead(was.radio, was.attempt + 1, true)
        else pc.Draining? && pc.after == ReturnExpired
    {
      hide Records, AddTimeout;
      ghost var l, m := View(), metrics;
      ExpireEffect(View(), metrics, t);
      hide Apply, Count, Release, StartDrain, Channel.SetPc;
      var Txn(call, _, _, Waiting(r, attempt, _)) := txns[t];
      RecordTimeout(call);
      if attempt < retries {
        SetPc(t, LoopHead(r, attempt + 1, true));
      } else {
        StartTimerOfDrain(t, r, ReturnExpired);
      }
      Note(l, m, WaitExpire(t));
    }

    // case packet, ok := <-r.Received() of a drain
    method Discard(t: Tid)
      requires Valid() && t in txns && txns[t].pc.Draining? && Pops(View(), txns[t].pc.radio)
      modifies this
      ensures Valid() && run == Then(old(run), DrainPacket(t))
      ensures t in txns && txns[t] == old(txns[t]) && old(txns[t].pc.radio) in radios
      ensures radios[old(txns[t].pc.radio)].received == old(radios[txns[t].pc.radio].received[1..])
    {
      hide Records, AddPacket;
      ghost var l, m := View(), metrics;
      DiscardEffect(View(), metrics, t);
      hide Apply, Count, Release, StartDrain, Channel.SetPc;
      var packet := Receive(txns[t].pc.radio);
      var _, _ := InspectPacket(packet, txns[t].call, false);
      Note(l, m, DrainPacket(t));
    }

    // The end of a drain, the outcome if it is still open, and the return.
    method FinishDrain(t: Tid)
      requires Valid() && t in txns && txns[t].pc.Draining? && txns[t].pc.radio in radios
      requires now >= txns[t].pc.until || radios[txns[t].pc.radio].Exhausted()
      modifies this
      ensures Valid() && run == Then(old(run), DrainEnd(t))
      ensures t in txns && txns[t].call == old(txns[t].call) && txns[t].canceled == old(txns[t].canceled)
      ensures match old(txns[t].pc.after)
        case Return(result) => txns[t].pc == Done(result)
        case ReturnCanceled => txns[t].pc == Done(Failed(Canceled))
        case ReturnExpired => txns[t].pc == Done(Failed(if txns[t].canceled then Canceled else TimedOut))
    {
      hide Records, AddOutcome;
      ghost var l, m := View(), metrics;
      DrainEndEffect(View(), metrics, t);
      hide Apply, Count, Release, StartDrain, Channel.SetPc;
      var Txn(call, canceled, _, Draining(_, _, after)) := txns[t];
      if after.Return? {
        ReturnToken(t, after.result);
      } else if after.ReturnCanceled? || canceled {
        RecordOutcome(call, Canceled);
        ReturnToken(t, Failed(Canceled));
      } else {
        RecordOutcome(call, TimedOut);
        ReturnToken(t, Failed(TimedOut));
      }
      Note(l, m, DrainEnd(t));
    }

    // ---------- transact ----------

    // The call waits, and no case of its select is ready.
    ghost predicate Stuck(t: Tid)
      reads this
      requires t in txns
    {
      match txns[t].pc
      case Queued => !gate && !txns[t].canceled
      case Waiting(r, _, deadline) =>
        !txns[t].canceled && now < deadline && r in radios && radios[r].received == [] && !radios[r].closed
      case Draining(r, until, _) => now < until && r in radios && radios[r].received == [] && !radios[r].closed
      case _ => false
    }

    method Yield(t: Tid, script: seq<Turn>) returns (rest: seq<Turn>)
      requires Valid() && t in txns
      modifies this
      ensures Valid() && run.Extends(old(run)) && t in txns
      ensures txns[t].(canceled := false) == old(txns[t].(canceled := false))
      ensures rest == if script == [] then [] else script[1..]
      ensures script == [] ==> run == old(run) && txns == old(txns) && radios == old(radios)
    {
      if script == [] {
        return [];
      }
      Interleave(t, script[0].steps);
      rest := script[1..];
    }

    // The select on the gate.
    method WaitForGate(t: Tid, script: seq<Turn>) returns (owned: bool, rest: seq<Turn>)
      requires Valid() && t in txns && txns[t].pc.Queued?
      modifies this
      ensures Valid() && run.Extends(old(run)) && t in txns && txns[t].call == old(txns[t].call)
      ensures if owned then txns[t].pc.Owner?
              else txns[t].pc == Done(Failed(Canceled)) || (txns[t].pc.Queued? && rest == [] && Stuck(t))
    {
      hide Records, Apply, Enabled;
      rest := script;
      while true
        invariant Valid() && run.Extends(old(run)) && t in txns && txns[t].call == old(txns[t].call)
        invariant txns[t].pc.Queued?
        decreases |rest|
      {
        var last := rest == [];
        var prefer := if last then Received else rest[0].prefer;
        ghost var before := run;
        rest := Yield(t, rest);
        ExtendsThrough(old(run), before, run);
        if gate && !(txns[t].canceled && prefer.Context?) {
          ReceiveToken(t);
          return true, rest;
        } else if txns[t].canceled {
          GiveUpQueue(t);
          return false, rest;
        } else if last {
          return false, rest;
        }
      }
    }

    // Where a wait on a radio leaves a call in some attempt.
    ghost predicate Waited(t: Tid, event: Event, r: RadioId, attempt: nat)
      reads this
      requires t in txns
    {
      var pc := txns[t].pc;
      match event
      case SendFailed => false
      case StillWaiting => pc.Waiting? && pc.radio == r && pc.attempt == attempt
      case ContextDone => pc.Draining? && pc.after == ReturnCanceled
      case Expired =>
        if attempt < retries then pc == LoopHead(r, attempt + 1, true) else pc.Draining? && pc.after == ReturnExpired
      case Matched(update) =>
        if attempt > 0 then pc.Draining? && pc.after.Return? && ReturnOf(Done(pc.after.result)) == Answer(update)
        else pc.Done? && ReturnOf(pc) == Answer(update)
    }

    // One pass through the select of waitForReply; not ready means it would block.
    method SelectReply(t: Tid, prefer: Choice) returns (ready: bool, event: Event)
      requires Valid() && t in txns && txns[t].pc.Waiting?
      modifies this
      ensures Valid() && (run == old(run) || (run.Then? && run.run == old(run)))
      ensures t in txns && txns[t].call == old(txns[t].call)
      ensures Waited(t, event, old(txns[t].pc.radio), old(txns[t].pc.attempt))
      ensures !ready ==> event == StillWaiting && txns == old(txns) && radios == old(radios) && Stuck(t)
      ensures event == StillWaiting ==> txns[t].pc == old(txns[t].pc)
      ensures ready && event == StillWaiting ==>
        && old(txns[t].pc.radio) in old(radios) && old(txns[t].pc.radio) in radios
        && |radios[old(txns[t].pc.radio)].received| < old(|radios[txns[t].pc.radio].received|)
    {
      hide Records, Apply, ReturnOf, DrainInterval, Pops, Completes, Completion;
      RadioIsThere(run, View(), metrics, t);
      var Waiting(r, _, deadline) := txns[t].pc;
      NextPacketPops(run, View(), metrics, r);
      var packet, closed, timer := radios[r].received != [], radios[r].Exhausted(), now >= deadline;
      ready, event := true, StillWaiting;
      if txns[t].canceled && (prefer.Context? || !(timer || packet || closed)) {
        StopWaiting(t);
        event := ContextDone;
      } else if (timer && (prefer.Timer? || !packet)) || closed {
        GiveUpAttempt(t);
        event := Expired;
      } else if packet {
        var update, matched := TakePacket(t);
        if matched {
          event := Matched(update);
        }
      } else {
        ready := false;
      }
    }

    method WaitForReply(t: Tid, script: seq<Turn>) returns (event: Event, rest: seq<Turn>)
      requires Valid() && t in txns && txns[t].pc.Waiting?
      modifies this
      ensures Valid() && run.Extends(old(run)) && t in txns && txns[t].call == old(txns[t].call)
      ensures Waited(t, event, old(txns[t].pc.radio), old(txns[t].pc.attempt))
      ensures event == StillWaiting ==> rest == [] && Stuck(t)
    {
      hide Records, Stuck, Waited, Apply, Enabled;
      rest := script;
      var Waiting(r, attempt, _) := txns[t].pc;
      RadioIsThere(run, View(), metrics, t);
      while true
        invariant Valid() && run.Extends(old(run)) && t in txns && txns[t].call == old(txns[t].call)
        invariant txns[t].pc == old(txns[t].pc) && r in radios
        decreases |rest|, |radios[r].received|
      {
        var last := rest == [];
        var prefer := if last then Received else rest[0].prefer;
        ghost var before := run;
        rest := Yield(t, rest);
        ExtendsThrough(old(run), before, run);
        RadioIsThere(run, View(), metrics, t);
        before := run;
        var ready;
        ready, event := SelectReply(t, prefer);
        ExtendsThrough(old(run), before, run);
        if event != StillWaiting || (last && !ready) {
          return;
        }
      }
    }

    // The drain's timer has been started; reads packets until it is due.
    method Drain(t: Tid, script: seq<Turn>) returns (ended: bool, rest: seq<Turn>)
      requires Valid() && t in txns && txns[t].pc.Draining?
      modifies this
      ensures Valid() && run.Extends(old(run)) && t in txns && txns[t].call == old(txns[t].call)
      ensures if !ended then rest == [] && txns[t].pc == old(txns[t].pc) && Stuck(t)
              else match old(txns[t].pc.after)
                   case Return(result) => txns[t].pc == Done(result)
                   case ReturnCanceled => txns[t].pc == Done(Failed(Canceled))
                   case ReturnExpired => txns[t].pc == Done(Failed(if txns[t].canceled then Canceled else TimedOut))
    {
      hide Records, Apply, Enabled, DrainInterval;
      rest := script;
      var Draining(r, until, _) := txns[t].pc;
      RadioIsThere(run, View(), metrics, t);
      while true
        invariant Valid() && run.Extends(old(run)) && t in txns && txns[t].call == old(txns[t].call)
        invariant txns[t].pc == old(txns[t].pc) && r in radios
        decreases |rest|, |radios[r].received|
      {
        var last := rest == [];
        var prefer := if last then Received else rest[0].prefer;
        ghost var before := run;
        rest := Yield(t, rest);
        ExtendsThrough(old(run), before, run);
        RadioIsThere(run, View(), metrics, t);
        NextPacketPops(run, View(), metrics, r);
        if (now >= until && (prefer.Timer? || radios[r].received == [])) || radios[r].Exhausted() {
          FinishDrain(t);
          return true, rest;
        } else if radios[r].received != [] {
          Discard(t);
        } else if last {
          return false, rest;
        }
      }
    }

    // One call, from its first look at the node table to its return.
    method Transact(t: Tid, call: Call, canceled: bool, script: seq<Turn>) returns (ret: Return, rest: seq<Turn>)
      requires Valid() && t !in txns
      modifies this
      ensures Valid() && run.Extends(old(run))
      ensures t in txns && txns[t].call == call && ret == ReturnOf(txns[t].pc)
      ensures ret.Blocked? ==> rest == [] && Stuck(t)
      ensures |Ownership.SendsOf(View(), t)| <= retries + 1
      ensures match ret
        case ErrUnknownNode => call.addr !in known
        case ErrNoRadio => Answers.CameWithoutRadio(run, t)
        case ErrCanceled => txns[t].canceled
        case ErrSend => Answers.SendFailed(run, t)
        case ErrTimeout => |Ownership.SendsOf(View(), t)| == retries + 1
        case _ => true
      ensures ret.Answer? ==> exists i: Rid ::
        && i < |reqs| && reqs[i].stage == Heard(ret.update)
        && reqs[i].call.addr == call.addr && reqs[i].call.reg == call.reg
        && (reqs[i].call.op.Get? <==> call.op.Get?)
      ensures ret.Answer? && run.AllPrompt() ==>
        exists i: Rid :: i in Ownership.SendsOf(View(), t) && reqs[i].stage == Heard(ret.update)
    {
      ret, rest := Perform(t, call, canceled, script);
      FewSends(run, View(), metrics, t);
      ErrorHasItsCause(run, View(), metrics, t);
      if ret.Answer? {
        AnswerFits(run, View(), metrics, t);
      }
      if ret.Answer? && run.AllPrompt() {
        AnswerIsOwn(run, View(), metrics, t);
      }
    }

    method Perform(t: Tid, call: Call, canceled: bool, script: seq<Turn>) returns (ret: Return, rest: seq<Turn>)
      requires Valid() && t !in txns
      modifies this
      ensures Valid() && run.Extends(old(run))
      ensures t in txns && txns[t].call == call && ret == ReturnOf(txns[t].pc)
      ensures ret.Blocked? ==> rest == [] && Stuck(t)
    {
      hide Apply;
      rest := script;
      Enter(t, call, canceled);
      if call.addr !in known {
        return ErrUnknownNode, rest;
      } else if radio.None? {
        return ErrNoRadio, rest;
      } else if canceled {
        return ErrCanceled, rest;
      }
      hide Records;
      ghost var entered := run;
      ret, rest := Acquire(t, rest);
      ExtendsThrough(old(run), entered, run);
      if txns[t].pc.LoopHead? {
        ghost var acquired := run;
        ret, rest := Retry(t, rest);
        ExtendsThrough(old(run), acquired, run);
      }
    }

    // The gate, the context once more, and the radio of this call.
    method Acquire(t: Tid, script: seq<Turn>) returns (ret: Return, rest: seq<Turn>)
      requires Valid() && t in txns && txns[t].pc.Queued?
      modifies this
      ensures Valid() && run.Extends(old(run)) && t in txns && txns[t].call == old(txns[t].call)
      ensures if txns[t].pc.LoopHead? then txns[t].pc.attempt == 0 && !txns[t].pc.sent
              else ret == ReturnOf(txns[t].pc) && (ret.Blocked? ==> rest == [] && Stuck(t))
    {
      hide Records, Apply;
      var owned;
      owned, rest := WaitForGate(t, script);
      if !owned {
        return if txns[t].pc.Queued? then Blocked else ErrCanceled, rest;
      }
      ghost var owning := run;
      rest := Yield(t, rest);
      ExtendsThrough(old(run), owning, run);
      RadioIsThere(run, View(), metrics, t);
      Prepare(t);
      ret := ErrCanceled;
    }

    // The retry loop.
    method Retry(t: Tid, script: seq<Turn>) returns (ret: Return, rest: seq<Turn>)
      requires Valid() && t in txns && txns[t].pc.LoopHead? && txns[t].pc.attempt == 0 && !txns[t].pc.sent
      modifies this
      ensures Valid() && run.Extends(old(run))
      ensures t in txns && txns[t].call == old(txns[t].call) && ret == ReturnOf(txns[t].pc)
      ensures ret.Blocked? ==> rest == [] && Stuck(t)
    {
      hide Records, Apply, Enabled;
      rest := script;
      var sent, attempt := false, 0;
      while attempt <= retries
        invariant attempt <= retries + 1 && Valid() && run.Extends(old(run)) && t in txns
          && txns[t].call == old(txns[t].call)
        invariant attempt <= retries ==> txns[t].pc == LoopHead(old(txns[t].pc.radio), attempt, sent)
        invariant attempt == retries + 1 ==> txns[t].pc.Draining? && txns[t].pc.after == ReturnExpired
      {
        ghost var before := run;
        var event;
        event, rest := TryOnce(t, attempt, sent, rest);
        ExtendsThrough(old(run), before, run);
        if event != Expired {
          ghost var tried := run;
          ret, rest := Leave(t, event, rest);
          ExtendsThrough(old(run), tried, run);
          return;
        }
        sent, attempt := true, attempt + 1;
      }
      ghost var exhausted := run;
      var ended;
      ended, rest := Drain(t, rest);
      ExtendsThrough(old(run), exhausted, run);
      ret := if !ended then Blocked else if txns[t].canceled then ErrCanceled else ErrTimeout;
    }

    // How a turn of the loop leaves a call, before the drain that some ends have.
    ghost predicate Tried(t: Tid, event: Event, attempt: nat, r: RadioId)
      reads this
      requires t in txns
    {
      var pc := txns[t].pc;
      match event
      case Expired =>
        if attempt < retries then pc == LoopHead(r, attempt + 1, true) else pc.Draining? && pc.after == ReturnExpired
      case StillWaiting => pc.Waiting?
      case _ =>
        if pc.Draining? && pc.after == ReturnCanceled then event == ContextDone
        else if pc.Draining? then pc.after.Return? && ReturnOf(Done(pc.after.result)) == ReturnAfter(event, true)
        else pc.Done? && ReturnOf(pc) == ReturnAfter(event, true)
    }

    // One turn of the loop: the context, the send, and the wait.
    method TryOnce(t: Tid, attempt: nat, sent: bool, script: seq<Turn>) returns (event: Event, rest: seq<Turn>)
      requires Valid() && t in txns && txns[t].pc.LoopHead? && txns[t].pc.attempt == attempt && txns[t].pc.sent == sent
      modifies this
      ensures Valid() && run.Extends(old(run)) && t in txns && txns[t].call == old(txns[t].call)
      ensures Tried(t, event, attempt, old(txns[t].pc.radio))
      ensures event == StillWaiting ==> rest == [] && Stuck(t)
    {
      hide Records, Apply, Enabled, Stuck;
      var sendOk := script == [] || script[0].sendOk;
      rest := Yield(t, script);
      RadioIsThere(run, View(), metrics, t);
      ghost var before := run;
      if txns[t].canceled {
        CheckContext(t);
        event := ContextDone;
      } else {
        event, rest := SendAndWait(t, attempt, sendOk, rest);
      }
      ExtendsThrough(old(run), before, run);
    }

    method SendAndWait(t: Tid, attempt: nat, sendOk: bool, script: seq<Turn>) returns (event: Event, rest: seq<Turn>)
      requires Valid() && t in txns && txns[t].pc.LoopHead? && txns[t].pc.attempt == attempt
      requires txns[t].pc.radio in radios && !txns[t].canceled
      modifies this
      ensures Valid() && run.Extends(old(run)) && t in txns && txns[t].call == old(txns[t].call)
      ensures Tried(t, event, attempt, old(txns[t].pc.radio))
      ensures event == StillWaiting ==> rest == [] && Stuck(t)
    {
      hide Records, Apply, Enabled, Stuck;
      SendRequest(t, sendOk);
      event, rest := SendFailed, script;
      if sendOk {
        ghost var before := run;
        event, rest := WaitForReply(t, rest);
        ExtendsThrough(old(run), before, run);
      }
    }

    // The drain that some ends have, and the return.
    method Leave(t: Tid, event: Event, script: seq<Turn>) returns (ret: Return, rest: seq<Turn>)
      requires Valid() && t in txns && event != Expired && Tried(t, event, 0, 0)
      requires event == StillWaiting ==> script == [] && Stuck(t)
      modifies this
      ensures Valid() && run.Extends(old(run)) && t in txns && txns[t].call == old(txns[t].call)
      ensures ret == ReturnOf(txns[t].pc) && (ret.Blocked? ==> rest == [] && Stuck(t))
    {
      hide Records, Apply;
      var ended := event != StillWaiting;
      rest := script;
      if txns[t].pc.Draining? {
        ended, rest := Drain(t, script);
      }
      ret := ReturnAfter(event, ended);
    }
  }

  lemma {:induction false} ExtendsThrough(a: Run, b: Run, c: Run)
    requires b.Extends(a) && c.Extends(b)
    ensures c.Extends(a)
  {
    if c != b {
      ExtendsThrough(a, b, c.run);
    }
  }

  // The radio a call uses stays, even after it has been replaced.
  lemma RadioIsThere(run: Run, l: Lane, m: Ledger, t: Tid)
    requires Records(run, l, m) && t in l.txns
    ensures match l.txns[t].pc
      case LoopHead(r, _, _) => r in l.radios
      case Waiting(r, _, _) => r in l.radios
      case Draining(r, _, _) => r in l.radios
      case Owner => l.radio.Some?
      case _ => true
  {
    hide run.Valid, run.Last, LedgerOf, Ownership.Consecutive;
    Ownership.Reachable(run);
  }

  lemma FewSends(run: Run, l: Lane, m: Ledger, t: Tid)
    requires Records(run, l, m)
    ensures |Ownership.SendsOf(l, t)| <= l.retries + 1
  {
    hide run.Valid, run.Last, LedgerOf;
    if i :| i in Ownership.SendsOf(l, t) {
      Ownership.SendsOfOneCall(run, t, i, i);
    } else {
      assert Ownership.SendsOf(l, t) == {};
    }
  }

  lemma ErrorHasItsCause(run: Run, l: Lane, m: Ledger, t: Tid)
    requires Records(run, l, m) && t in l.txns
    ensures match ReturnOf(l.txns[t].pc)
      case ErrUnknownNode => l.txns[t].call.addr !in l.known
      case ErrNoRadio => Answers.CameWithoutRadio(run, t)
      case ErrCanceled => l.txns[t].canceled
      case ErrSend => Answers.SendFailed(run, t)
      case ErrTimeout => |Ownership.SendsOf(l, t)| == l.retries + 1
      case _ => true
  {
    hide run.Valid, run.Last, LedgerOf, Ownership.SendsOf;
    Answers.FailureHasItsCause(run, t);
  }

  lemma AnswerFits(run: Run, l: Lane, m: Ledger, t: Tid)
    requires Records(run, l, m) && t in l.txns && ReturnOf(l.txns[t].pc).Answer?
    ensures exists i: Rid ::
      && i < |l.reqs| && l.reqs[i].stage == Heard(ReturnOf(l.txns[t].pc).update)
      && l.reqs[i].call.addr == l.txns[t].call.addr && l.reqs[i].call.reg == l.txns[t].call.reg
      && (l.reqs[i].call.op.Get? <==> l.txns[t].call.op.Get?)
  {
    hide run.Valid, run.Last, LedgerOf;
    Answers.SuccessAnswersTheCall(run, t);
  }

  lemma AnswerIsOwn(run: Run, l: Lane, m: Ledger, t: Tid)
    requires Records(run, l, m) && run.AllPrompt() && t in l.txns && ReturnOf(l.txns[t].pc).Answer?
    ensures exists i: Rid :: i in Ownership.SendsOf(l, t) && l.reqs[i].stage == Heard(ReturnOf(l.txns[t].pc).update)
  {
    hide run.Valid, run.Last, LedgerOf;
    Isolation.SuccessIsOwn(run, t);
    assert Isolation.Success(l.txns[t].pc).value.cause in Ownership.SendsOf(l, t);
  }

  lemma NextPacketPops(run: Run, l: Lane, m: Ledger, r: RadioId)
    requires Records(run, l, m) && r in l.radios
    ensures l.radios[r].received != [] ==> Pops(l, r)
  {
    hide run.Valid, run.Last, LedgerOf;
    ReachableBuffers(run);
    if l.radios[r].received != [] {
      assert AllHeard(l, l.radios[r].received);
      assert l.radios[r].received[0] in l.radios[r].received;
    }
  }

  lemma WhatCompletes(l: Lane, t: Tid)
    requires Enabled(l, WaitPacket(t))
    ensures var packet, want := l.radios[l.txns[t].pc.radio].received[0], l.txns[t].call;
      && (packet.Reply? ==> packet.rid < |l.reqs|)
      && (Completes(l, t) <==>
            (packet.Reply? && l.reqs[packet.rid].call.addr == want.addr && l.reqs[packet.rid].call.reg == want.reg
             && (l.reqs[packet.rid].call.op.Get? <==> want.op.Get?)))
      && (Completes(l, t) ==> l.reqs[packet.rid].stage == Heard(Completion(l, t).update))
  {
  }

  // Where a packet leaves a waiting call, and the buffer it came from.
  lemma AfterPacket(l: Lane, t: Tid)
    requires Enabled(l, WaitPacket(t))
    ensures var Txn(call, _, _, was) := l.txns[t];
      var l' := Apply(l, WaitPacket(t));
      && t in l'.txns && l'.txns[t].call == call
      && was.radio in l'.radios && l'.radios[was.radio].received == l.radios[was.radio].received[1..]
      && var pc := l'.txns[t].pc;
         if !Completes(l, t) then pc == was
         else if was.attempt > 0 then
           pc.Draining? && pc.after.Return? && ReturnOf(Done(pc.after.result)) == Answer(Completion(l, t).update)
         else pc.Done? && ReturnOf(pc) == Answer(Completion(l, t).update)
  {
  }

  // ---------- what the steps of a call do, and what they count ----------

  lemma CountsNothing(l: Lane, m: Ledger, s: Step)
    requires Enabled(l, s) && (s.AddRadio? || s.TakeGate? || s.WaitCancel?)
    ensures Count(l, m, s) == m
  {
  }

  lemma StartEffect(l: Lane, m: Ledger, t: Tid, call: Call, canceled: bool)
    requires Enabled(l, Start(t, call, canceled))
    ensures Apply(l, Start(t, call, canceled)) == DoStart(l, t, call, canceled)
    ensures Count(l, m, Start(t, call, canceled)) ==
      if call.addr !in l.known then m
      else if l.radio.None? then AddOutcome(m, call, NoRadio)
      else if canceled then AddOutcome(m, call, Canceled) else m
  {
    hide AddOutcome;
  }

  lemma LeaveQueueEffect(l: Lane, m: Ledger, t: Tid)
    requires Enabled(l, LeaveQueue(t))
    ensures Apply(l, LeaveQueue(t)) == Channel.SetPc(l, t, Done(Failed(Canceled)))
    ensures Count(l, m, LeaveQueue(t)) == AddOutcome(m, l.txns[t].call, Canceled)
  {
    hide AddOutcome;
  }

  lemma BeginEffect(l: Lane, m: Ledger, t: Tid)
    requires Enabled(l, Begin(t))
    ensures if l.txns[t].canceled then
        && Apply(l, Begin(t)) == Release(l, t, Failed(Canceled))
        && Count(l, m, Begin(t)) == AddOutcome(m, l.txns[t].call, Canceled)
      else
        Apply(l, Begin(t)) == Channel.SetPc(l, t, LoopHead(l.radio.value, 0, false)) && Count(l, m, Begin(t)) == m
  {
    hide AddOutcome;
  }

  lemma CheckEffect(l: Lane, m: Ledger, t: Tid)
    requires Enabled(l, Attempt(t, true)) && l.txns[t].canceled
    ensures var Txn(call, _, _, LoopHead(r, _, sent)) := l.txns[t];
      if sent then
        Apply(l, Attempt(t, true)) == StartDrain(l, t, r, ReturnCanceled) && Count(l, m, Attempt(t, true)) == m
      else
        && Apply(l, Attempt(t, true)) == Release(l, t, Failed(Canceled))
        && Count(l, m, Attempt(t, true)) == AddOutcome(m, call, Canceled)
  {
    hide AddOutcome;
  }

  lemma SendEffect(l: Lane, m: Ledger, t: Tid, ok: bool)
    requires Enabled(l, Attempt(t, ok)) && !l.txns[t].canceled
    ensures var Txn(call, _, _, LoopHead(r, attempt, sent)) := l.txns[t];
      var tried := AddAttempt(m, call, attempt, ok);
      && Count(l, m, Attempt(t, ok)) == (if ok then tried else AddOutcome(tried, call, SendError))
      && Apply(l, Attempt(t, ok)) ==
           if ok then
             Channel.SetPc(l.(reqs := l.reqs + [Req(t, call, r, l.now, InFlight)]), t,
               Waiting(r, attempt, l.now + l.timeout))
           else if sent then StartDrain(l, t, r, After.Return(Failed(SendError)))
           else Release(l, t, Failed(SendError))
  {
    hide AddOutcome, AddAttempt;
  }

  lemma ExpireEffect(l: Lane, m: Ledger, t: Tid)
    requires Enabled(l, WaitExpire(t))
    ensures var Txn(call, _, _, Waiting(r, attempt, _)) := l.txns[t];
      && Count(l, m, WaitExpire(t)) == AddTimeout(m, call)
      && Apply(l, WaitExpire(t)) ==
           if attempt < l.retries then Channel.SetPc(l, t, LoopHead(r, attempt + 1, true))
           else StartDrain(l, t, r, ReturnExpired)
  {
    hide AddTimeout;
  }

  lemma DiscardEffect(l: Lane, m: Ledger, t: Tid)
    requires Enabled(l, DrainPacket(t))
    ensures var r := l.txns[t].pc.radio;
      && Count(l, m, DrainPacket(t)) == AddPacket(m, l.reqs, l.radios[r].received[0], false)
      && Apply(l, DrainPacket(t)) == Pop(l, r)
  {
    hide AddPacket;
  }

  lemma DrainEndEffect(l: Lane, m: Ledger, t: Tid)
    requires Enabled(l, DrainEnd(t))
    ensures var Txn(call, canceled, _, Draining(_, _, after)) := l.txns[t];
      if after.Return? then Count(l, m, DrainEnd(t)) == m && Apply(l, DrainEnd(t)) == Release(l, t, after.result)
      else
        var o := if after.ReturnCanceled? || canceled then Canceled else TimedOut;
        && Count(l, m, DrainEnd(t)) == AddOutcome(m, call, o)
        && Apply(l, DrainEnd(t)) == Release(l, t, Failed(o))
  {
    hide AddOutcome;
  }

  lemma PacketEffect(l: Lane, m: Ledger, t: Tid)
    requires Enabled(l, WaitPacket(t))
    ensures var Txn(call, _, started, Waiting(r, attempt, _)) := l.txns[t];
      var counted := AddPacket(m, l.reqs, l.radios[r].received[0], Completes(l, t));
      if Completes(l, t) then
        && Count(l, m, WaitPacket(t)) ==
             AddLatency(AddOutcome(counted, call, Completion(l, t).outcome), call, l.now - started)
        && Apply(l, WaitPacket(t)) ==
             if attempt > 0 then StartDrain(Pop(l, r), t, r, After.Return(Completion(l, t)))
             else Release(Pop(l, r), t, Completion(l, t))
      else
        Count(l, m, WaitPacket(t)) == counted && Apply(l, WaitPacket(t)) == Pop(l, r)
  {
    hide AddPacket, AddOutcome, AddLatency, StartDrain, Release;
  }

  // A call that was not refused is for a node that has counters.
  lemma {:induction false} CallsAreKnown(run: Run, t: Tid)
    requires run.Valid()
    ensures LedgerOf(run).Keys == run.Last().known
    ensures t in run.Last().txns && !run.Last().txns[t].pc.Refused? ==> run.Last().txns[t].call.addr in run.Last().known
  {
    if run.Then? {
      CallsAreKnown(run.run, t);
      KeysStay(run.run.Last(), LedgerOf(run.run), run.step);
      CallStaysKnown(run.run.Last(), run.step, t);
      hide Apply, Enabled, Count;
    }
  }

  lemma CounterTables(run: Run, l: Lane, m: Ledger, t: Tid)
    requires Records(run, l, m)
    ensures m.Keys == l.known
    ensures t in l.txns && !l.txns[t].pc.Refused? ==> l.txns[t].call.addr in l.known
  {
    hide run.Valid, run.Last, LedgerOf;
    CallsAreKnown(run, t);
  }

  lemma CallStaysKnown(l: Lane, s: Step, t: Tid)
    requires Enabled(l, s)
    requires t in l.txns && !l.txns[t].pc.Refused? ==> l.txns[t].call.addr in l.known
    ensures Apply(l, s).known == l.known
    ensures t in Apply(l, s).txns && !Apply(l, s).txns[t].pc.Refused? ==> Apply(l, s).txns[t].call.addr in l.known
  {
    if OfCall(s) && !s.Start? {
      CallStep(l, s);
      RefusedIsFinal(l, s);
      hide Apply, Enabled;
    } else if Outside(s) {
      OutsideStep(l, s);
      hide Apply, Enabled;
    }
  }

  lemma RefusedIsFinal(l: Lane, s: Step)
    requires Enabled(l, s) && OfCall(s) && !s.Start?
    ensures s.t in l.txns && !l.txns[s.t].pc.Refused?
  {
  }

  lemma StepKeepsConstants(l: Lane, s: Step)
    requires Enabled(l, s)
    ensures var l' := Apply(l, s); l'.timeout == l.timeout && l'.retries == l.retries && l'.known == l.known
  {
    if OfCall(s) {
      CallStep(l, s);
      hide Apply, Enabled;
    } else if Outside(s) {
      OutsideStep(l, s);
      hide Apply, Enabled;
    }
  }
}
