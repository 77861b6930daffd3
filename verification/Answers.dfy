/** What ends a call, whatever the link does: which packets complete it, what its outcome
    says about its sends, and how long it waits. */
module Answers {
  import opened Channel
  import opened Options
  import opened Turnaround
  import Isolation
  import Ownership
  import Registers

  // ---------- which packets complete a call ----------

  // A packet ends a wait exactly if it is a reply from the node, for the register and of
  // the type that the call waits for; the call then has its content, and otherwise waits on.
  lemma CompletesIff(l: Lane, t: Tid)
    requires Enabled(l, WaitPacket(t))
    ensures var packet, want := l.radios[l.txns[t].pc.radio].received[0], l.txns[t].call;
      var pc := Apply(l, WaitPacket(t)).txns[t].pc;
      if packet.Reply? && l.reqs[packet.rid].call.addr == want.addr && l.reqs[packet.rid].call.reg == want.reg
        && (l.reqs[packet.rid].call.op.Get? <==> want.op.Get?) then
        && Isolation.Success(pc).Some?
        && Isolation.Success(pc).value.update == l.reqs[packet.rid].stage.update
        && Isolation.Success(pc).value.cause == packet.rid
        && (if l.txns[t].pc.attempt > 0 then pc.Draining? else pc.Done?)
      else pc == l.txns[t].pc
  {
  }

  // A success is new only when such a packet has been taken.
  lemma SuccessComesFrom(l: Lane, s: Step, t: Tid)
    requires Enabled(l, s) && t in Apply(l, s).txns && Isolation.Success(Apply(l, s).txns[t].pc).Some?
    ensures t in l.txns ==> Apply(l, s).txns[t].call == l.txns[t].call
    ensures (t in l.txns && Isolation.Success(l.txns[t].pc) == Isolation.Success(Apply(l, s).txns[t].pc))
         || (s == WaitPacket(t) && Isolation.Success(l.txns[t].pc).None?)
  {
    if OfCall(s) && s.t == t {
      CallStep(l, s);
      OwnSuccess(l, s);
      hide Apply, Enabled, Isolation.Success;
    } else if OfCall(s) {
      CallStep(l, s);
      hide Apply, Enabled, Isolation.Success;
    } else if Outside(s) {
      OutsideStep(l, s);
      hide Apply, Enabled, Isolation.Success;
    }
  }

  lemma OwnSuccess(l: Lane, s: Step)
    requires Enabled(l, s) && OfCall(s) && s.t in Apply(l, s).txns && Isolation.Success(Apply(l, s).txns[s.t].pc).Some?
    ensures (s.t in l.txns && Isolation.Success(l.txns[s.t].pc) == Isolation.Success(Apply(l, s).txns[s.t].pc))
         || (s == WaitPacket(s.t) && Isolation.Success(l.txns[s.t].pc).None?)
  {
    if s.Attempt? || s.WaitExpire? || s.WaitCancel? {
      NoSuccessYet(l, s);
      assert false;
    } else if s.DrainEnd? || s.DrainPacket? {
      DrainKeepsSuccess(l, s);
      hide Apply, Enabled, Isolation.Success;
    }
  }

  lemma NoSuccessYet(l: Lane, s: Step)
    requires Enabled(l, s) && (s.Attempt? || s.WaitExpire? || s.WaitCancel?)
    ensures s.t in Apply(l, s).txns && Isolation.Success(Apply(l, s).txns[s.t].pc).None?
  {
  }

  lemma DrainKeepsSuccess(l: Lane, s: Step)
    requires Enabled(l, s) && (s.DrainEnd? || s.DrainPacket?)
    ensures s.t in l.txns && s.t in Apply(l, s).txns
    ensures Isolation.Success(Apply(l, s).txns[s.t].pc).Some? ==>
      Isolation.Success(l.txns[s.t].pc) == Isolation.Success(Apply(l, s).txns[s.t].pc)
  {
  }

  // A heard request stays as it is.
  lemma HeardStays(l: Lane, s: Step, i: Rid)
    requires Enabled(l, s) && i < |l.reqs| && l.reqs[i].stage.Heard?
    ensures i < |Apply(l, s).reqs| && Apply(l, s).reqs[i] == l.reqs[i]
  {
    if OfCall(s) {
      CallStep(l, s);
      hide Apply, Enabled;
    } else if Outside(s) {
      OutsideStep(l, s);
      hide Apply;
    }
  }

  // The call's success is what it should be: the content of a reply to a request for the
  // same register of the same node, and of the same kind.
  ghost predicate Answered(l: Lane, t: Tid)
    requires t in l.txns
  {
    var success, want := Isolation.Success(l.txns[t].pc), l.txns[t].call;
    success.Some? ==>
      && success.value.cause < |l.reqs|
      && var req := l.reqs[success.value.cause];
         && req.call.addr == want.addr && req.call.reg == want.reg && (req.call.op.Get? <==> want.op.Get?)
         && req.stage == Heard(success.value.update)
  }

  lemma AnsweredKept(l: Lane, s: Step, t: Tid)
    requires Enabled(l, s) && t in Apply(l, s).txns && (t in l.txns ==> Answered(l, t))
    ensures Answered(Apply(l, s), t)
  {
    if Isolation.Success(Apply(l, s).txns[t].pc).Some? {
      SuccessComesFrom(l, s, t);
      if s == WaitPacket(t) && Isolation.Success(l.txns[t].pc).None? {
        CompletesIff(l, t);
        CallStep(l, s);
        hide Apply, Isolation.Success;
      } else {
        HeardStays(l, s, Isolation.Success(l.txns[t].pc).value.cause);
        hide Apply, Enabled, Isolation.Success;
      }
    }
  }

  // In every run, over any link, whatever completes a call answers a request for the
  // register it asks, at the node it asks, and of the kind it asks.
  lemma {:induction false} SuccessAnswersTheCall(run: Run, t: Tid)
    requires run.Valid() && t in run.Last().txns && Isolation.Success(run.Last().txns[t].pc).Some?
    ensures var l := run.Last();
      var Succeeded(_, update, i) := Isolation.Success(l.txns[t].pc).value;
      && i < |l.reqs|
      && l.reqs[i].call.addr == l.txns[t].call.addr
      && l.reqs[i].call.reg == l.txns[t].call.reg
      && (l.reqs[i].call.op.Get? <==> l.txns[t].call.op.Get?)
      && l.reqs[i].stage == Heard(update)
  {
    AllAnswered(run, t);
    hide run.Valid, run.Last, Isolation.Success;
  }

  lemma {:induction false} AllAnswered(run: Run, t: Tid)
    requires run.Valid() && t in run.Last().txns
    ensures Answered(run.Last(), t)
  {
    if run.Then? {
      hide Apply, Enabled, Answered;
      if t in run.run.Last().txns {
        AllAnswered(run.run, t);
      }
      AnsweredKept(run.run.Last(), run.step, t);
    }
  }

  // ---------- what an outcome says about the sends ----------

  // A waiting call has sent one request for each attempt.
  lemma SentPerAttempt(l: Lane, t: Tid)
    requires Ownership.Inv(l) && t in l.txns && l.txns[t].pc.Waiting?
    ensures |Ownership.SendsOf(l, t)| == l.txns[t].pc.attempt + 1
  {
    hide Ownership.Consecutive;
    assert l.holder == Some(t);
    assert Ownership.SendsOf(l, t) == Ownership.Window(l.base, l.txns[t].pc.attempt + 1);
  }

  // Only a call at the head of its loop sends.
  lemma SendsStay(l: Lane, s: Step, t: Tid)
    requires Enabled(l, s) && !(s == Attempt(t, true) && !l.txns[t].canceled)
    ensures Ownership.SendsOf(Apply(l, s), t) == Ownership.SendsOf(l, t)
  {
    if OfCall(s) {
      CallStep(l, s);
      hide Apply;
    } else if Outside(s) {
      OutsideStep(l, s);
      hide Apply, Enabled;
    }
  }

  ghost predicate Told(l: Lane, t: Tid)
    requires t in l.txns
  {
    var success := Isolation.Success(l.txns[t].pc);
    success.Some? ==>
      if |Ownership.SendsOf(l, t)| == 1 then success.value.outcome == SuccessFirst
      else success.value.outcome == SuccessRetry
  }

  lemma OutcomeOfCompletion(l: Lane, t: Tid)
    requires Enabled(l, WaitPacket(t)) && Isolation.Success(Apply(l, WaitPacket(t)).txns[t].pc).Some?
    ensures Isolation.Success(Apply(l, WaitPacket(t)).txns[t].pc).value.outcome ==
      if l.txns[t].pc.attempt == 0 then SuccessFirst else SuccessRetry
  {
  }

  lemma ToldKept(l: Lane, s: Step, t: Tid)
    requires Ownership.Inv(l) && Enabled(l, s) && t in Apply(l, s).txns && (t in l.txns ==> Told(l, t))
    ensures Told(Apply(l, s), t)
  {
    hide Ownership.Inv, Ownership.SendsOf;
    if Isolation.Success(Apply(l, s).txns[t].pc).Some? {
      SuccessComesFrom(l, s, t);
      SendsStay(l, s, t);
      if s == WaitPacket(t) && Isolation.Success(l.txns[t].pc).None? {
        SentPerAttempt(l, t);
        OutcomeOfCompletion(l, t);
      }
      hide Apply, Isolation.Success;
    }
  }

  // The outcome of a success is success_first exactly if the call has sent one request.
  lemma OutcomeTellsTheSends(run: Run, t: Tid)
    requires run.Valid() && t in run.Last().txns && Isolation.Success(run.Last().txns[t].pc).Some?
    ensures Isolation.Success(run.Last().txns[t].pc).value.outcome ==
      if |Ownership.SendsOf(run.Last(), t)| == 1 then SuccessFirst else SuccessRetry
  {
    AllTold(run, t);
    hide run.Valid, run.Last, Isolation.Success;
  }

  lemma {:induction false} AllTold(run: Run, t: Tid)
    requires run.Valid() && t in run.Last().txns
    ensures Told(run.Last(), t)
  {
    if run.Then? {
      hide Apply, Enabled, Told;
      if t in run.run.Last().txns {
        AllTold(run.run, t);
      }
      Ownership.Reachable(run.run);
      ToldKept(run.run.Last(), run.step, t);
    }
  }

  // ---------- how long a call waits ----------

  ghost predicate Patient(l: Lane, t: Tid)
    requires t in l.txns
  {
    l.txns[t].pc.Waiting? ==>
      l.reqs != [] && l.txns[t].pc.deadline == l.reqs[|l.reqs| - 1].sentAt + l.timeout
  }

  lemma WaitBegins(l: Lane, s: Step, t: Tid)
    requires Enabled(l, s) && t in Apply(l, s).txns && Apply(l, s).txns[t].pc.Waiting?
    ensures t in l.txns
    ensures l.txns[t].pc == Apply(l, s).txns[t].pc
         || (s == Attempt(t, true) && !l.txns[t].canceled && Apply(l, s).txns[t].pc.deadline == l.now + l.timeout)
  {
    if OfCall(s) && s.t != t {
      CallStep(l, s);
      hide Apply, Enabled;
    } else if Outside(s) {
      OutsideStep(l, s);
      hide Apply, Enabled;
    }
  }

  // While a call waits nobody sends.
  lemma NobodySends(l: Lane, s: Step, t: Tid)
    requires Ownership.Inv(l) && Enabled(l, s) && t in l.txns && l.txns[t].pc.Waiting?
    ensures |Apply(l, s).reqs| == |l.reqs| && Apply(l, s).timeout == l.timeout
    ensures forall i | 0 <= i < |l.reqs| :: Apply(l, s).reqs[i].sentAt == l.reqs[i].sentAt
  {
    if OfCall(s) {
      assert !s.Attempt? by {
        hide Ownership.Consecutive, Ownership.Turn;
      }
      hide Ownership.Inv;
      CallStep(l, s);
      hide Apply;
    } else if Outside(s) {
      OutsideStep(l, s);
      hide Apply, Enabled, Ownership.Inv;
    }
  }

  lemma SentNow(l: Lane, t: Tid)
    requires Enabled(l, Attempt(t, true)) && !l.txns[t].canceled
    ensures var l' := Apply(l, Attempt(t, true));
      l'.reqs != [] && l'.reqs[|l'.reqs| - 1].sentAt == l.now && l'.timeout == l.timeout
  {
  }

  lemma PatientKept(l: Lane, s: Step, t: Tid)
    requires Ownership.Inv(l) && Enabled(l, s) && t in Apply(l, s).txns && (t in l.txns ==> Patient(l, t))
    ensures Patient(Apply(l, s), t)
  {
    hide Ownership.Inv;
    if Apply(l, s).txns[t].pc.Waiting? {
      WaitBegins(l, s, t);
      if l.txns[t].pc == Apply(l, s).txns[t].pc {
        NobodySends(l, s, t);
      } else {
        SentNow(l, t);
      }
      hide Apply, Enabled;
    }
  }

  // A call waits for the whole configured timeout after its latest send.
  lemma {:induction false} WaitsItsTimeout(run: Run, t: Tid)
    requires run.Valid() && t in run.Last().txns
    ensures Patient(run.Last(), t)
    ensures var l := run.Last();
      l.txns[t].pc.Waiting? ==>
        l.reqs != [] && l.txns[t].pc.deadline == l.reqs[|l.reqs| - 1].sentAt + l.timeout
  {
    if run.Then? {
      hide Apply, Enabled, Patient;
      if t in run.run.Last().txns {
        WaitsItsTimeout(run.run, t);
      }
      Ownership.Reachable(run.run);
      PatientKept(run.run.Last(), run.step, t);
    }
    PatientIs(run.Last(), t);
  }

  lemma PatientIs(l: Lane, t: Tid)
    requires t in l.txns && Patient(l, t)
    ensures l.txns[t].pc.Waiting? ==>
      l.reqs != [] && l.txns[t].pc.deadline == l.reqs[|l.reqs| - 1].sentAt + l.timeout
  {
  }

  // So an attempt is given up only once the timeout has passed since its send, or when the
  // call's radio has been closed and has nothing left to read.
  lemma GivesUpInTime(run: Run, t: Tid)
    requires run.Valid() && run.Then? && run.step == WaitExpire(t)
    ensures var l := run.run.Last();
      && t in l.txns && l.txns[t].pc.Waiting? && l.txns[t].pc.radio in l.radios && l.reqs != []
      && (l.now >= l.reqs[|l.reqs| - 1].sentAt + l.timeout
          || (l.radios[l.txns[t].pc.radio].closed && l.radios[l.txns[t].pc.radio].received == []))
  {
    WaitsItsTimeout(run.run, t);
    hide Patient, Apply;
  }

  // And a drain ends only at its end, or when its radio has been closed and is empty.
  lemma DrainsToItsEnd(l: Lane, t: Tid)
    requires Enabled(l, DrainEnd(t))
    ensures t in l.txns && l.txns[t].pc.Draining? && l.txns[t].pc.radio in l.radios
    ensures l.now >= l.txns[t].pc.until
         || (l.radios[l.txns[t].pc.radio].closed && l.radios[l.txns[t].pc.radio].received == [])
  {
  }

  // A drain that begins lasts for the guard of the call's radio and ten milliseconds, and
  // for ten milliseconds at least; one that goes on keeps its end.
  lemma DrainsItsInterval(l: Lane, s: Step, t: Tid)
    requires Enabled(l, s) && t in Apply(l, s).txns && Apply(l, s).txns[t].pc.Draining?
    ensures t in l.txns
    ensures var was, pc := l.txns[t].pc, Apply(l, s).txns[t].pc;
      if was.Draining? then pc == was
      else
        && (was.LoopHead? || was.Waiting?) && pc.radio == was.radio && was.radio in l.radios
        && var window := l.radios[was.radio].guard + 10_000_000;
           pc.until == l.now + if window > 10_000_000 then window else 10_000_000
  {
    if OfCall(s) && s.t == t {
      OwnDrain(l, s);
    } else {
      DrainOfOthers(l, s, t);
    }
    hide Apply, Enabled;
  }

  lemma OwnDrain(l: Lane, s: Step)
    requires Enabled(l, s) && OfCall(s) && s.t in Apply(l, s).txns && Apply(l, s).txns[s.t].pc.Draining?
    ensures s.t in l.txns
    ensures var was, pc := l.txns[s.t].pc, Apply(l, s).txns[s.t].pc;
      if was.Draining? then pc == was
      else
        && (was.LoopHead? || was.Waiting?) && pc.radio == was.radio && was.radio in l.radios
        && var window := l.radios[was.radio].guard + 10_000_000;
           pc.until == l.now + if window > 10_000_000 then window else 10_000_000
  {
    hide Apply, Enabled;
    if s.Attempt? {
      AttemptDrains(l, s);
    } else if s.WaitPacket? || s.WaitCancel? || s.WaitExpire? {
      WaitDrains(l, s);
    } else {
      NothingElseDrains(l, s);
    }
  }

  lemma AttemptDrains(l: Lane, s: Step)
    requires Enabled(l, s) && s.Attempt? && s.t in Apply(l, s).txns && Apply(l, s).txns[s.t].pc.Draining?
    ensures s.t in l.txns
    ensures var was, pc := l.txns[s.t].pc, Apply(l, s).txns[s.t].pc;
      if was.Draining? then pc == was
      else
        && (was.LoopHead? || was.Waiting?) && pc.radio == was.radio && was.radio in l.radios
        && var window := l.radios[was.radio].guard + 10_000_000;
           pc.until == l.now + if window > 10_000_000 then window else 10_000_000
  {
    hide Completion, Completes;
  }

  lemma WaitDrains(l: Lane, s: Step)
    requires Enabled(l, s) && (s.WaitPacket? || s.WaitCancel? || s.WaitExpire?)
    requires s.t in Apply(l, s).txns && Apply(l, s).txns[s.t].pc.Draining?
    ensures s.t in l.txns
    ensures var was, pc := l.txns[s.t].pc, Apply(l, s).txns[s.t].pc;
      if was.Draining? then pc == was
      else
        && (was.LoopHead? || was.Waiting?) && pc.radio == was.radio && was.radio in l.radios
        && var window := l.radios[was.radio].guard + 10_000_000;
           pc.until == l.now + if window > 10_000_000 then window else 10_000_000
  {
    hide Completion, Completes;
  }

  lemma NothingElseDrains(l: Lane, s: Step)
    requires Enabled(l, s) && OfCall(s) && !s.Attempt? && !s.WaitPacket? && !s.WaitCancel? && !s.WaitExpire?
    requires s.t in Apply(l, s).txns && Apply(l, s).txns[s.t].pc.Draining?
    ensures s.t in l.txns && Apply(l, s).txns[s.t].pc == l.txns[s.t].pc
  {
  }

  lemma DrainOfOthers(l: Lane, s: Step, t: Tid)
    requires Enabled(l, s) && t in Apply(l, s).txns && Apply(l, s).txns[t].pc.Draining? && !(OfCall(s) && s.t == t)
    ensures t in l.txns && Apply(l, s).txns[t].pc == l.txns[t].pc
  {
    if OfCall(s) {
      CallStep(l, s);
      hide Apply, Enabled;
    } else if Outside(s) {
      OutsideStep(l, s);
      hide Apply, Enabled;
    }
  }

  // ---------- when a call began ----------

  lemma StartedStays(l: Lane, s: Step, t: Tid)
    requires Enabled(l, s) && t in l.txns
    ensures t in Apply(l, s).txns && Apply(l, s).txns[t].started == l.txns[t].started
  {
    if OfCall(s) {
      CallStep(l, s);
      hide Apply, Enabled;
    } else if Outside(s) {
      OutsideStep(l, s);
      hide Apply, Enabled;
    }
  }

  // A call is timed from its entry into transact, so its latency includes the queue.
  lemma {:induction false} TimedFromEntry(run: Run, before: Run, t: Tid, call: Call, canceled: bool)
    requires run.Valid() && run.Extends(Then(before, Start(t, call, canceled)))
    ensures before.Valid() && t in run.Last().txns && run.Last().txns[t].started == before.Last().now
  {
    if run != Then(before, Start(t, call, canceled)) {
      TimedFromEntry(run.run, before, t, call, canceled);
      StartedStays(run.run.Last(), run.step, t);
      hide Apply, Enabled;
    }
  }

  // ---------- why a call failed ----------

  // A Send of the call returned an error.
  ghost predicate SendFailed(run: Run, t: Tid)
    requires run.Valid()
  {
    run.Then? &&
    (SendFailed(run.run, t) || (run.step == Attempt(t, false) && !run.run.Last().txns[t].canceled))
  }

  // The call came when its channel had no radio.
  ghost predicate CameWithoutRadio(run: Run, t: Tid)
    requires run.Valid()
  {
    run.Then? &&
    (CameWithoutRadio(run.run, t) || (run.step.Start? && run.step.t == t && run.run.Last().radio.None?))
  }

  ghost predicate Cause(run: Run, t: Tid, o: Outcome)
    requires run.Valid() && t in run.Last().txns
  {
    match o
    case NoRadio => CameWithoutRadio(run, t)
    case Canceled => run.Last().txns[t].canceled
    case SendError => SendFailed(run, t)
    case TimedOut => |Ownership.SendsOf(run.Last(), t)| == run.Last().retries + 1
    case _ => false
  }

  // A failure that has been decided, or is about to be when a drain ends.
  ghost predicate Explained(run: Run, t: Tid)
    requires run.Valid() && t in run.Last().txns
  {
    match run.Last().txns[t].pc
    case Refused => run.Last().txns[t].call.addr !in run.Last().known
    case Done(Failed(o)) => Cause(run, t, o)
    case Draining(_, _, Return(Failed(o))) => Cause(run, t, o)
    case Draining(_, _, ReturnCanceled) => Cause(run, t, Canceled)
    case Draining(_, _, ReturnExpired) => Cause(run, t, TimedOut)
    case _ => true
  }

  // A step that is not its own leaves a call where it is.
  lemma OthersLeave(l: Lane, s: Step, t: Tid)
    requires Enabled(l, s) && t in l.txns && !(OfCall(s) && s.t == t)
    ensures var l' := Apply(l, s);
      && t in l'.txns && l'.txns[t].pc == l.txns[t].pc && l'.txns[t].call == l.txns[t].call
      && (l.txns[t].canceled ==> l'.txns[t].canceled) && l'.known == l.known && l'.retries == l.retries
      && Ownership.SendsOf(l', t) == Ownership.SendsOf(l, t)
  {
    SendsStay(l, s, t);
    hide Ownership.SendsOf;
    if OfCall(s) {
      CallStep(l, s);
      hide Apply, Enabled;
    } else if Outside(s) {
      OutsideStep(l, s);
      hide Apply, Enabled;
    }
  }

  lemma KeptByOthers(run: Run, s: Step, t: Tid)
    requires run.Valid() && Enabled(run.Last(), s) && t in run.Last().txns && !(OfCall(s) && s.t == t)
    requires Explained(run, t)
    ensures t in Then(run, s).Last().txns && Explained(Then(run, s), t)
  {
    OthersLeave(run.Last(), s, t);
    assert Then(run, s).Last() == Apply(run.Last(), s);
    hide run.Valid, run.Last, Apply, Enabled, Ownership.SendsOf;
  }

  lemma ExplainedAtStart(run: Run, s: Step)
    requires run.Valid() && Enabled(run.Last(), s) && (s.Start? || s.LeaveQueue? || s.TakeGate? || s.Begin?)
    ensures s.t in Then(run, s).Last().txns && Explained(Then(run, s), s.t)
  {
    assert Then(run, s).Last() == Apply(run.Last(), s);
    hide run.Valid, run.Last, Ownership.SendsOf;
  }

  lemma ExplainedByAttempt(run: Run, s: Step)
    requires run.Valid() && Enabled(run.Last(), s) && s.Attempt?
    ensures s.t in Then(run, s).Last().txns && Explained(Then(run, s), s.t)
  {
    assert Then(run, s).Last() == Apply(run.Last(), s);
    hide run.Valid, run.Last, Ownership.SendsOf;
  }

  lemma ExplainedByWait(run: Run, s: Step)
    requires run.Valid() && Enabled(run.Last(), s) && (s.WaitPacket? || s.WaitCancel?)
    ensures s.t in Then(run, s).Last().txns && Explained(Then(run, s), s.t)
  {
    assert Then(run, s).Last() == Apply(run.Last(), s);
    hide run.Valid, run.Last, Ownership.SendsOf, Completes;
  }

  lemma ExplainedByExpiry(run: Run, s: Step)
    requires run.Valid() && Enabled(run.Last(), s) && s.WaitExpire?
    requires Ownership.Inv(run.Last())
    ensures s.t in Then(run, s).Last().txns && Explained(Then(run, s), s.t)
  {
    var l := run.Last();
    SentPerAttempt(l, s.t);
    SendsStay(l, s, s.t);
    AttemptsAreFew(l, s.t);
    assert Then(run, s).Last() == Apply(l, s);
    hide run.Valid, run.Last, Ownership.SendsOf, Ownership.Inv;
  }

  lemma AttemptsAreFew(l: Lane, t: Tid)
    requires Ownership.Inv(l) && t in l.txns && l.txns[t].pc.Waiting?
    ensures l.txns[t].pc.attempt <= l.retries
  {
    hide Ownership.Consecutive;
  }

  lemma ExplainedByDrain(run: Run, s: Step)
    requires run.Valid() && Enabled(run.Last(), s) && (s.DrainPacket? || s.DrainEnd?)
    requires Explained(run, s.t)
    ensures s.t in Then(run, s).Last().txns && Explained(Then(run, s), s.t)
  {
    SendsStay(run.Last(), s, s.t);
    hide run.Valid, run.Last, Ownership.SendsOf;
  }

  // Every failure has its cause: no radio when the call came, a context that is done, a
  // Send that returned an error, or all attempts made in vain.
  lemma {:induction false} FailureHasItsCause(run: Run, t: Tid)
    requires run.Valid() && t in run.Last().txns
    ensures Explained(run, t)
    ensures match run.Last().txns[t].pc
      case Refused => run.Last().txns[t].call.addr !in run.Last().known
      case Done(Failed(NoRadio)) => CameWithoutRadio(run, t)
      case Done(Failed(Canceled)) => run.Last().txns[t].canceled
      case Done(Failed(SendError)) => SendFailed(run, t)
      case Done(Failed(o)) => o == TimedOut && |Ownership.SendsOf(run.Last(), t)| == run.Last().retries + 1
      case _ => true
    decreases run, 0
  {
    assert run.Then?;
    var before, s := run.run, run.step;
    if OfCall(s) && s.t == t {
      ExplainStep(before, s);
    } else {
      OldCall(before.Last(), s, t);
      FailureHasItsCause(before, t);
      KeptByOthers(before, s, t);
    }
    hide Apply, Enabled, Ownership.SendsOf, SendFailed, CameWithoutRadio;
  }

  lemma OldCall(l: Lane, s: Step, t: Tid)
    requires Enabled(l, s) && t in Apply(l, s).txns && !(OfCall(s) && s.t == t)
    ensures t in l.txns
  {
    if OfCall(s) {
      CallStep(l, s);
      hide Apply, Enabled;
    } else if Outside(s) {
      OutsideStep(l, s);
      hide Apply, Enabled;
    }
  }

  lemma {:induction false} ExplainStep(run: Run, s: Step)
    requires run.Valid() && Enabled(run.Last(), s) && OfCall(s)
    ensures s.t in Then(run, s).Last().txns && Explained(Then(run, s), s.t)
    decreases run, 1
  {
    hide Apply, Explained;
    if s.Attempt? {
      ExplainedByAttempt(run, s);
    } else if s.WaitExpire? {
      Ownership.Reachable(run);
      ExplainedByExpiry(run, s);
    } else if s.WaitPacket? || s.WaitCancel? {
      ExplainedByWait(run, s);
    } else if s.DrainPacket? || s.DrainEnd? {
      FailureHasItsCause(run, s.t);
      ExplainedByDrain(run, s);
    } else {
      ExplainedAtStart(run, s);
    }
  }
}
