/** Tokenless isolation: over a prompt link, no reply to one call ever completes
    another, on every way a call can end. */
module Isolation {
  import opened Channel
  import opened Options
  import opened Turnaround
  import Ownership

  // A buffered reply was heard by this radio, and is buffered once.
  ghost predicate Buffered(l: Lane, r: RadioId)
    requires r in l.radios
  {
    var q := l.radios[r].received;
    && (forall k | 0 <= k < |q| && q[k].Reply? ::
          q[k].rid < |l.reqs| && l.reqs[q[k].rid].radio == r && l.reqs[q[k].rid].stage.Heard?)
    && (forall j, k | 0 <= j < k < |q| && q[j].Reply? :: q[j] != q[k])
  }

  // A request no reply can come from any more.
  ghost predicate Dead(l: Lane, i: Rid) {
    && i < |l.reqs| && l.reqs[i].radio in l.radios
    && var radio := l.radios[l.reqs[i].radio];
    && (l.reqs[i].stage.Heard? || radio.closed || l.now >= l.reqs[i].sentAt + DrainInterval(radio.guard))
    && Reply(i) !in radio.received
  }

  // The success a call has reported, or will report when its drain is over.
  function Success(pc: Pc): Option<Result> {
    match pc
    case Done(result) => if result.Succeeded? then Some(result) else None
    case Draining(_, _, Return(result)) => if result.Succeeded? then Some(result) else None
    case _ => None
  }

  // A success comes from a reply to a request of this very call.
  ghost predicate Caused(l: Lane, t: Tid, pc: Pc)
    requires t in l.txns
  {
    var s := Success(pc);
    s.Some? ==>
      && s.value.cause < |l.reqs|
      && l.reqs[s.value.cause].owner == t
      && l.reqs[s.value.cause].call == l.txns[t].call
      && l.reqs[s.value.cause].stage == Heard(s.value.update)
  }

  // What keeps replies apart, beside the lane itself.
  ghost predicate Apart(l: Lane) {
    && (forall r | r in l.radios :: Buffered(l, r))
    && (forall i | 0 <= i < Ownership.Past(l) :: Dead(l, i))
    && (forall t | t in l.txns :: Caused(l, t, l.txns[t].pc))
  }

  ghost predicate Inv(l: Lane) {
    Ownership.Inv(l) && Apart(l)
  }

  // ---------- moves of the owner ----------

  lemma PopKeeps(l: Lane, r: RadioId)
    requires Apart(l) && r in l.radios && l.radios[r].received != []
    ensures Apart(Pop(l, r))
    ensures var p := l.radios[r].received[0]; p.Reply? ==> p !in Pop(l, r).radios[r].received
  {
    var l' := Pop(l, r);
    forall r' | r' in l'.radios ensures Buffered(l', r') {
      assert Buffered(l, r');
    }
    forall i | 0 <= i < Ownership.Past(l') ensures Dead(l', i) {
      assert Dead(l, i);
    }
  }

  lemma ReleaseKeeps(l: Lane, t: Tid, result: Result)
    requires Apart(l) && t in l.txns && l.holder == Some(t)
    requires forall i | l.base <= i < |l.reqs| :: Dead(l, i)
    requires Caused(l, t, Done(result))
    ensures Apart(Release(l, t, result))
  {
    var l' := Release(l, t, result);
    forall r | r in l'.radios ensures Buffered(l', r) {
      assert Buffered(l, r);
    }
    forall i | 0 <= i < Ownership.Past(l') ensures Dead(l', i) {
      assert Dead(l, i);
    }
  }

  lemma SetPcKeeps(l: Lane, t: Tid, pc: Pc)
    requires Apart(l) && t in l.txns && Caused(l, t, pc)
    ensures Apart(SetPc(l, t, pc))
  {
    var l' := SetPc(l, t, pc);
    forall r | r in l'.radios ensures Buffered(l', r) {
      assert Buffered(l, r);
    }
    forall i | 0 <= i < Ownership.Past(l') ensures Dead(l', i) {
      assert Dead(l, i);
    }
  }

  lemma StartDrainKeeps(l: Lane, t: Tid, r: RadioId, after: After)
    requires Apart(l) && t in l.txns && r in l.radios
    requires Caused(l, t, Draining(r, 0, after))
    ensures Apart(StartDrain(l, t, r, after))
  {
    SetPcKeeps(l, t, Draining(r, l.now + DrainInterval(l.radios[r].guard), after));
  }

  lemma SendKeeps(l: Lane, t: Tid)
    requires Inv(l) && Enabled(l, Attempt(t, true)) && !l.txns[t].canceled
    ensures Apart(DoAttempt(l, t, true))
  {
    var l' := DoAttempt(l, t, true);
    forall r | r in l'.radios ensures Buffered(l', r) {
      assert Buffered(l, r);
    }
    forall i | 0 <= i < Ownership.Past(l') ensures Dead(l', i) {
      assert Dead(l, i);
    }
    forall u | u in l'.txns ensures Caused(l', u, l'.txns[u].pc) {
      assert Caused(l, u, l.txns[u].pc);
    }
  }

  lemma AttemptKeeps(l: Lane, t: Tid, ok: bool)
    requires Inv(l) && Enabled(l, Attempt(t, ok))
    ensures Apart(Apply(l, Attempt(t, ok)))
  {
    var LoopHead(r, attempt, sent) := l.txns[t].pc;
    var after := if l.txns[t].canceled then ReturnCanceled else Return(Failed(SendError));
    if !l.txns[t].canceled && ok {
      SendKeeps(l, t);
    } else if sent {
      StartDrainKeeps(l, t, r, after);
    } else {
      ReleaseKeeps(l, t, Failed(if l.txns[t].canceled then Canceled else SendError));
    }
  }

  // What a waiting call takes from its radio is a reply to one of its own requests.
  lemma HeardIsOwn(l: Lane, t: Tid)
    requires Inv(l) && Enabled(l, WaitPacket(t))
    ensures var p := l.radios[l.txns[t].pc.radio].received[0];
      p.Reply? ==> l.base <= p.rid < |l.reqs| && l.reqs[p.rid].owner == t && l.reqs[p.rid].call == l.txns[t].call
  {
    var r := l.txns[t].pc.radio;
    var p := l.radios[r].received[0];
    assert Buffered(l, r) && p in l.radios[r].received;
    assert p.Reply? && p.rid < l.base ==> Dead(l, p.rid);
  }

  // One request, one reply, and it has just been taken.
  lemma MatchedIsDead(l: Lane, t: Tid, i: Rid)
    requires Inv(l) && Enabled(l, WaitPacket(t)) && Completes(l, t)
    requires l.txns[t].pc.attempt == 0 && l.base <= i < |l.reqs|
    ensures Dead(Pop(l, l.txns[t].pc.radio), i)
  {
    HeardIsOwn(l, t);
    PopKeeps(l, l.txns[t].pc.radio);
    hide Ownership.Consecutive, Apart;
    assert i == l.radios[l.txns[t].pc.radio].received[0].rid;
  }

  lemma CompletionIsCaused(l: Lane, t: Tid)
    requires Inv(l) && Enabled(l, WaitPacket(t)) && Completes(l, t)
    ensures Caused(Pop(l, l.txns[t].pc.radio), t, Done(Completion(l, t)))
  {
    HeardIsOwn(l, t);
    hide Ownership.Inv, Apart;
  }

  lemma WaiterOwns(l: Lane, t: Tid)
    requires Ownership.Inv(l) && Enabled(l, WaitPacket(t))
    ensures l.holder == Some(t)
  {
    hide Ownership.Consecutive, Ownership.Turn;
  }

  lemma FirstMatchKeeps(l: Lane, t: Tid)
    requires Inv(l) && Enabled(l, WaitPacket(t)) && Completes(l, t) && l.txns[t].pc.attempt == 0
    ensures Apart(Apply(l, WaitPacket(t)))
  {
    var popped := Pop(l, l.txns[t].pc.radio);
    WaiterOwns(l, t);
    PopKeeps(l, l.txns[t].pc.radio);
    CompletionIsCaused(l, t);
    hide Ownership.Inv, Apart, Dead;
    forall i | popped.base <= i < |popped.reqs| ensures Dead(popped, i) {
      MatchedIsDead(l, t, i);
    }
    ReleaseKeeps(popped, t, Completion(l, t));
  }

  lemma WaitPacketKeeps(l: Lane, t: Tid)
    requires Inv(l) && Enabled(l, WaitPacket(t))
    ensures Apart(Apply(l, WaitPacket(t)))
  {
    var Waiting(r, attempt, _) := l.txns[t].pc;
    PopKeeps(l, r);
    hide Ownership.Inv, Apart;
    if Completes(l, t) {
      if attempt > 0 {
        CompletionIsCaused(l, t);
        StartDrainKeeps(Pop(l, r), t, r, Return(Completion(l, t)));
      } else {
        FirstMatchKeeps(l, t);
      }
    }
  }

  lemma WaitExpireKeeps(l: Lane, t: Tid)
    requires Inv(l) && Enabled(l, WaitExpire(t))
    ensures Apart(Apply(l, WaitExpire(t)))
  {
    hide Ownership.Inv, Apart;
    var Waiting(r, attempt, _) := l.txns[t].pc;
    if attempt < l.retries {
      SetPcKeeps(l, t, LoopHead(r, attempt + 1, true));
    } else {
      StartDrainKeeps(l, t, r, ReturnExpired);
    }
  }

  lemma WaitCancelKeeps(l: Lane, t: Tid)
    requires Inv(l) && Enabled(l, WaitCancel(t))
    ensures Apart(Apply(l, WaitCancel(t)))
  {
    hide Ownership.Inv, Apart;
    StartDrainKeeps(l, t, l.txns[t].pc.radio, ReturnCanceled);
  }

  lemma DrainPacketKeeps(l: Lane, t: Tid)
    requires Inv(l) && Enabled(l, DrainPacket(t))
    ensures Apart(Apply(l, DrainPacket(t)))
  {
    hide Ownership.Inv, Apart;
    PopKeeps(l, l.txns[t].pc.radio);
  }

  // After a drain to its end no reply to the call can come any more.
  lemma DrainedAreDead(l: Lane, t: Tid, i: Rid)
    requires Inv(l) && Enabled(l, DrainEnd(t)) && Prompt(l, DrainEnd(t))
    requires l.base <= i < |l.reqs|
    ensures l.holder == Some(t) && Dead(l, i)
  {
    hide Ownership.Consecutive, Apart;
  }

  lemma DrainEndKeeps(l: Lane, t: Tid)
    requires Inv(l) && Enabled(l, DrainEnd(t)) && Prompt(l, DrainEnd(t))
    ensures Apart(Apply(l, DrainEnd(t)))
  {
    forall i | l.base <= i < |l.reqs| ensures Dead(l, i) {
      DrainedAreDead(l, t, i);
    }
    assert Caused(l, t, l.txns[t].pc);
    DrainerOwns(l, t);
    hide Ownership.Inv, Apart, Dead;
    ReleaseKeeps(l, t, AfterDrain(l.txns[t]));
  }

  lemma DrainerOwns(l: Lane, t: Tid)
    requires Ownership.Inv(l) && Enabled(l, DrainEnd(t))
    ensures l.holder == Some(t)
  {
    hide Ownership.Consecutive, Ownership.Turn;
  }

  lemma BeginKeeps(l: Lane, t: Tid)
    requires Inv(l) && Enabled(l, Begin(t))
    ensures Apart(Apply(l, Begin(t)))
  {
    if l.txns[t].canceled {
      ReleaseKeeps(l, t, Failed(Canceled));
    } else {
      SetPcKeeps(l, t, LoopHead(l.radio.value, 0, false));
    }
  }

  lemma TakeGateKeeps(l: Lane, t: Tid)
    requires Inv(l) && Enabled(l, TakeGate(t))
    ensures Apart(Apply(l, TakeGate(t)))
  {
    var l' := Apply(l, TakeGate(t));
    forall r | r in l'.radios ensures Buffered(l', r) {
      assert Buffered(l, r);
    }
    forall i | 0 <= i < Ownership.Past(l') ensures Dead(l', i) {
      assert Dead(l, i);
    }
  }

  // ---------- moves of the others ----------

  lemma OutsiderKeeps(l: Lane, t: Tid, txn: Txn)
    requires Apart(l) && Success(txn.pc).None?
    ensures Apart(l.(txns := l.txns[t := txn]))
  {
    var l' := l.(txns := l.txns[t := txn]);
    forall r | r in l'.radios ensures Buffered(l', r) {
      assert Buffered(l, r);
    }
    forall i | 0 <= i < Ownership.Past(l') ensures Dead(l', i) {
      assert Dead(l, i);
    }
  }

  lemma CancelKeeps(l: Lane, t: Tid)
    requires Apart(l) && Enabled(l, Cancel(t))
    ensures Apart(Apply(l, Cancel(t)))
  {
    var l' := Apply(l, Cancel(t));
    forall r | r in l'.radios ensures Buffered(l', r) {
      assert Buffered(l, r);
    }
    forall i | 0 <= i < Ownership.Past(l') ensures Dead(l', i) {
      assert Dead(l, i);
    }
    forall u | u in l'.txns ensures Caused(l', u, l'.txns[u].pc) {
      assert Caused(l, u, l.txns[u].pc);
    }
  }

  lemma StageKeeps(l: Lane, rid: Rid, stage: Stage)
    requires Apart(l) && rid < |l.reqs| && !l.reqs[rid].stage.Heard? && !stage.Heard?
    ensures Apart(SetStage(l, rid, stage))
  {
    var l' := SetStage(l, rid, stage);
    forall r | r in l'.radios ensures Buffered(l', r) {
      assert Buffered(l, r);
    }
    forall i | 0 <= i < Ownership.Past(l') ensures Dead(l', i) {
      assert Dead(l, i);
    }
    forall t | t in l'.txns ensures Caused(l', t, l'.txns[t].pc) {
      assert Caused(l, t, l.txns[t].pc);
    }
  }

  // A prompt reply is for the call that owns the lane, and is not in any buffer yet.
  lemma DeliveredIsCurrent(l: Lane, rid: Rid, r: RadioId)
    requires Inv(l) && Enabled(l, Deliver(rid, r)) && Prompt(l, Deliver(rid, r))
    ensures rid >= Ownership.Past(l) && Reply(rid) !in l.radios[r].received
  {
    hide Ownership.Inv;
    assert Buffered(l, r);
    assert rid < Ownership.Past(l) ==> Dead(l, rid);
  }

  lemma BuffersKeptByDeliver(l: Lane, rid: Rid, r: RadioId)
    requires Inv(l) && Enabled(l, Deliver(rid, r)) && Prompt(l, Deliver(rid, r))
    ensures forall r' | r' in Apply(l, Deliver(rid, r)).radios :: Buffered(Apply(l, Deliver(rid, r)), r')
  {
    var l' := Apply(l, Deliver(rid, r));
    DeliveredIsCurrent(l, rid, r);
    hide Ownership.Inv, Dead, Caused;
    forall r' | r' in l'.radios ensures Buffered(l', r') {
      assert Buffered(l, r');
    }
  }

  lemma DeliverKeeps(l: Lane, rid: Rid, r: RadioId)
    requires Inv(l) && Enabled(l, Deliver(rid, r)) && Prompt(l, Deliver(rid, r))
    ensures Apart(Apply(l, Deliver(rid, r)))
  {
    var l' := Apply(l, Deliver(rid, r));
    DeliveredIsCurrent(l, rid, r);
    BuffersKeptByDeliver(l, rid, r);
    CausesKeptByDeliver(l, rid, r);
    hide Ownership.Inv, Buffered, Caused;
    forall i | 0 <= i < Ownership.Past(l') ensures Dead(l', i) {
      assert Dead(l, i);
    }
  }

  lemma CausesKeptByDeliver(l: Lane, rid: Rid, r: RadioId)
    requires Inv(l) && Enabled(l, Deliver(rid, r))
    ensures var l' := Apply(l, Deliver(rid, r)); forall t | t in l'.txns :: Caused(l', t, l'.txns[t].pc)
  {
    var l' := Apply(l, Deliver(rid, r));
    hide Ownership.Inv, Buffered, Dead;
    forall t | t in l'.txns ensures Caused(l', t, l'.txns[t].pc) {
      assert Caused(l, t, l.txns[t].pc);
    }
  }

  lemma RadioKeeps(l: Lane, r: RadioId, radio: Radio)
    requires Inv(l)
    requires r in l.radios ==>
      && radio.guard == l.radios[r].guard && (l.radios[r].closed ==> radio.closed)
      && (radio.received == l.radios[r].received
          || exists src, junk :: radio.received == l.radios[r].received + [Noise(src, junk)])
    requires r !in l.radios ==> radio.received == []
    ensures Apart(l.(radios := l.radios[r := radio]))
  {
    var l' := l.(radios := l.radios[r := radio]);
    forall r' | r' in l'.radios ensures Buffered(l', r') {
      assert r' in l.radios ==> Buffered(l, r');
    }
    forall i | 0 <= i < Ownership.Past(l') ensures Dead(l', i) {
      assert Dead(l, i);
    }
  }

  lemma TickKeeps(l: Lane, elapsed: nat)
    requires Inv(l) && Enabled(l, Tick(elapsed))
    ensures Apart(Apply(l, Tick(elapsed)))
  {
    var l' := Apply(l, Tick(elapsed));
    forall r | r in l'.radios ensures Buffered(l', r) {
      assert Buffered(l, r);
    }
    forall i | 0 <= i < Ownership.Past(l') ensures Dead(l', i) {
      assert Dead(l, i);
    }
  }

  lemma AddRadioKeeps(l: Lane, r: RadioId, guard: int)
    requires Inv(l) && Enabled(l, AddRadio(r, guard))
    ensures Apart(Apply(l, AddRadio(r, guard)))
  {
    var radio := if r in l.radios then l.radios[r] else Radio(guard, false, []);
    var l1 := l.(radios := l.radios[r := radio]);
    RadioKeeps(l, r, radio);
    var l' := Apply(l, AddRadio(r, guard));
    assert l'.radios == l1.radios;
    forall r' | r' in l'.radios ensures Buffered(l', r') {
      assert Buffered(l1, r');
    }
    forall i | 0 <= i < Ownership.Past(l') ensures Dead(l', i) {
      assert Dead(l1, i);
    }
  }

  lemma Preserved(l: Lane, s: Step)
    requires Inv(l) && Enabled(l, s) && Prompt(l, s)
    ensures Inv(Apply(l, s))
  {
    Ownership.Preserved(l, s);
    ApartPreserved(l, s);
  }

  lemma NodeKeeps(l: Lane, s: Step)
    requires Inv(l) && Enabled(l, s) && (s.NodeReceive? || s.NodeReply? || s.NodeWrite? || s.DeviceChange?)
    ensures Apart(Apply(l, s))
  {
    hide Ownership.Inv, Apart;
    match s
    case NodeReceive(rid, answer) => StageKeeps(l, rid, AtNode(answer));
    case NodeReply(rid) => StageKeeps(l, rid, InAir(l.reqs[rid].stage.update));
    case _ =>
  }

  lemma AirKeeps(l: Lane, s: Step)
    requires Inv(l) && Enabled(l, s) && (s.CloseRadio? || s.MakeNoise?)
    ensures Apart(Apply(l, s))
  {
    hide Ownership.Inv, Apart;
    match s
    case CloseRadio(r) => RadioKeeps(l, r, l.radios[r].(closed := true));
    case MakeNoise(r, src, junk) => RadioKeeps(l, r, Push(l, r, Noise(src, junk)).radios[r]);
  }

  lemma QueueKeeps(l: Lane, s: Step)
    requires Inv(l) && Enabled(l, s) && (s.Start? || s.LeaveQueue?)
    ensures Apart(Apply(l, s))
  {
    hide Ownership.Inv, Apart;
    OutsiderKeeps(l, s.t, Apply(l, s).txns[s.t]);
  }

  lemma ApartPreserved(l: Lane, s: Step)
    requires Inv(l) && Enabled(l, s) && Prompt(l, s)
    ensures Apart(Apply(l, s))
  {
    hide Apply, Enabled, Ownership.Inv, Apart, Prompt;
    match s
    case Tick(elapsed) => TickKeeps(l, elapsed);
    case Cancel(t) => CancelKeeps(l, t);
    case AddRadio(r, guard) => AddRadioKeeps(l, r, guard);
    case Deliver(rid, r) => DeliverKeeps(l, rid, r);
    case CloseRadio(_) => AirKeeps(l, s);
    case MakeNoise(_, _, _) => AirKeeps(l, s);
    case Start(_, _, _) => QueueKeeps(l, s);
    case LeaveQueue(_) => QueueKeeps(l, s);
    case TakeGate(t) => TakeGateKeeps(l, t);
    case Begin(t) => BeginKeeps(l, t);
    case Attempt(t, ok) => AttemptKeeps(l, t, ok);
    case WaitPacket(t) => WaitPacketKeeps(l, t);
    case WaitCancel(t) => WaitCancelKeeps(l, t);
    case WaitExpire(t) => WaitExpireKeeps(l, t);
    case DrainPacket(t) => DrainPacketKeeps(l, t);
    case DrainEnd(t) => DrainEndKeeps(l, t);
    case _ => NodeKeeps(l, s);
  }

  // ---------- the theorems ----------

  lemma {:induction false} Reachable(run: Run)
    requires run.Valid() && run.AllPrompt()
    ensures Inv(run.Last())
  {
    match run
    case First(start) => Ownership.InitialInv(start);
    case Then(earlier, step) =>
      Reachable(earlier);
      Preserved(earlier.Last(), step);
  }

  // Whenever a reply completes a call, the reply answers a request of that call.
  lemma OnlyOwnRepliesComplete(run: Run, t: Tid)
    requires run.Valid() && run.AllPrompt()
    requires Enabled(run.Last(), WaitPacket(t)) && Completes(run.Last(), t)
    ensures var l := run.Last(); l.reqs[Completion(l, t).cause].owner == t
  {
    hide run.Valid, run.Last, run.AllPrompt;
    Reachable(run);
    HeardIsOwn(run.Last(), t);
  }

  // And so every success, however the call has ended since, rests on a reply to one
  // of its own requests, and carries that reply's value.
  lemma SuccessIsOwn(run: Run, t: Tid)
    requires run.Valid() && run.AllPrompt()
    requires t in run.Last().txns && Success(run.Last().txns[t].pc).Some?
    ensures Caused(run.Last(), t, run.Last().txns[t].pc)
  {
    hide run.Valid, run.Last, run.AllPrompt;
    Reachable(run);
  }

  lemma {:induction false} PastGrows(earlier: Run, later: Run)
    requires earlier.Valid() && later.Valid() && later.Extends(earlier)
    ensures Ownership.Past(earlier.Last()) <= Ownership.Past(later.Last())
  {
    if later != earlier {
      PastGrows(earlier, later.run);
      Ownership.Reachable(later.run);
      OneStepGrowsPast(later.run.Last(), later.step);
    }
  }

  lemma OneStepGrowsPast(l: Lane, s: Step)
    requires Ownership.Inv(l) && Enabled(l, s)
    ensures Ownership.Past(l) <= Ownership.Past(Apply(l, s))
  {
    hide Ownership.Consecutive;
  }

  // When the token is back in the gate, nothing sent so far will ever be heard again:
  // no reply is buffered, and none can be delivered in any continuation.
  lemma ReturnedGateIsQuiet(run: Run, later: Run, rid: Rid)
    requires run.Valid() && later.Valid() && later.Extends(run) && later.AllPrompt()
    requires run.Last().gate && rid < |run.Last().reqs|
    ensures Dead(later.Last(), rid)
    ensures forall r :: Enabled(later.Last(), Deliver(rid, r)) ==> !Prompt(later.Last(), Deliver(rid, r))
  {
    hide run.Valid, run.Last, run.AllPrompt;
    Ownership.Reachable(run);
    PastGrows(run, later);
    Reachable(later);
    assert Dead(later.Last(), rid);
  }
}
