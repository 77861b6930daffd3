/** The reconnecting dongle in the shape of lib/site/radio/reconnect.go: Send, Receive,
    Close, drop and supervise over the fields of Reconnecting. The other goroutines take
    arbitrary steps between two actions; every state is the end of a run, so what is
    proved about runs holds of it. */
module Dongle {
  import opened Options
  import opened Reconnect

  // The steps the supervisor itself takes.
  predicate Supervises(step: Step) {
    OfSupervisor(step) && !step.CancelContext?
  }

  lemma OthersLeaveTheSupervisor(s: State, step: Step)
    requires Enabled(s, step) && !Supervises(step)
    ensures Apply(s, step).sup == s.sup
  {
    if OfTraffic(step) {
      hide Apply, Enabled;
      TrafficFrame(s, step);
    } else if OfDrop(step) {
      hide Apply, Enabled;
      DropFrame(s, step);
    } else if OfClose(step) {
      hide Apply, Enabled;
      CloseFrame(s, step);
    } else {
      hide DoTraffic, DoDrop, DoClose, TrafficEnabled, DropEnabled, CloseEnabled;
    }
  }

  lemma {:induction false} ExtendsThrough(a: Run, b: Run, c: Run)
    requires b.Extends(a) && c.Extends(b)
    ensures c.Extends(a)
  {
    if c != b {
      ExtendsThrough(a, b, c.run);
    }
  }

  // What the others do before the next action, and how the world answers it.
  datatype Turn = Turn(steps: seq<Step>, deviceOk: bool, got: Received, timer: bool)

  // The state that a run ends with.
  ghost predicate Records(run: Run, s: State) {
    run.Valid() && run.Last() == s
  }

  lemma OneMoreStep(run: Run, s: State, step: Step)
    requires Records(run, s) && Enabled(s, step)
    ensures Records(Then(run, step), Apply(s, step))
  {
    hide Apply, Enabled;
  }

  class Reconnecting {
    var cur: Option<Dev>
    var closed: bool
    var wake: bool
    var n: Connections
    var tx: Packets

    var canceled: bool          // the context of the supervisor
    var sup: Supervisor         // where the goroutines are
    var calls: map<Cid, Call>

    var devices: seq<Device>    // history
    var sendings: seq<Sending>
    var vacated: Cid
    ghost var run: Run

    function View(): State
      reads this
    {
      State(cur, closed, wake, canceled, sup, calls, n, tx, devices, sendings, vacated)
    }

    ghost predicate Valid()
      reads this
    {
      Records(run, View())
    }

    constructor ()
      ensures Valid() && run.First?
    {
      cur, closed, wake, canceled, sup, calls := None, false, false, false, Looking, map[];
      n, tx, devices, sendings, vacated := NO_CONNECTIONS, NO_PACKETS, [], [], 0;
      new;
      run := First(View());
    }

    ghost method Note(s: State, step: Step)
      requires Records(run, s) && Enabled(s, step) && View() == Apply(s, step)
      modifies this`run
      ensures Valid() && run == Then(old(run), step)
    {
      hide Apply, Enabled, Records;
      OneMoreStep(run, s, step);
      run := Then(run, step);
    }

    method Take(step: Step)
      requires Valid() && Enabled(View(), step)
      modifies this
      ensures Valid() && run == Then(old(run), step)
    {
      hide Records, Apply, Enabled;
      ghost var s := View();
      var next := Apply(View(), step);
      cur, closed, wake, canceled, sup, calls := next.cur, next.closed, next.wake, next.canceled, next.sup, next.calls;
      n, tx, devices, sendings, vacated := next.n, next.tx, next.devices, next.sendings, next.vacated;
      Note(s, step);
    }

    // Everybody but this caller.
    method Others(c: Cid, steps: seq<Step>)
      requires Valid()
      modifies this
      ensures Valid() && run.Extends(old(run)) && CallOf(View(), c) == old(CallOf(View(), c))
    {
      for i := 0 to |steps|
        invariant Valid() && run.Extends(old(run)) && CallOf(View(), c) == old(CallOf(View(), c))
      {
        hide Apply, Enabled;
        if Enabled(View(), steps[i]) && !Moves(steps[i], c) {
          OtherCallsStay(View(), steps[i], c);
          Take(steps[i]);
        }
      }
    }

    // Everybody but the supervisor.
    method OtherThanSupervisor(steps: seq<Step>)
      requires Valid()
      modifies this
      ensures Valid() && run.Extends(old(run)) && sup == old(sup)
    {
      for i := 0 to |steps|
        invariant Valid() && run.Extends(old(run)) && sup == old(sup)
      {
        hide Apply, Enabled;
        if Enabled(View(), steps[i]) && !Supervises(steps[i]) {
          OthersLeaveTheSupervisor(View(), steps[i]);
          Take(steps[i]);
        }
      }
    }

    // ---------- Send ----------

    method PickDevice(c: Cid, forSend: bool) returns (d: Option<Dev>)
      requires Valid() && CallOf(View(), c).NoCall?
      modifies this
      ensures Valid() && run == Then(old(run), if forSend then PickForSend(c) else PickForReceive(c)) && d == old(cur)
      ensures CallOf(View(), c) == if forSend then SendPicked(d) else ReceivePicked(d)
    {
      hide Records, DoDrop, DoClose, DoSupervise, DropEnabled, CloseEnabled, SupervisorEnabled, OfDrop, OfClose;
      ghost var s := View();
      d := cur;
      calls := calls[c := if forSend then SendPicked(d) else ReceivePicked(d)];
      Note(s, if forSend then PickForSend(c) else PickForReceive(c));
    }

    method CountTheSend(c: Cid)
      requires Valid() && CallOf(View(), c).SendPicked?
      modifies this
      ensures Valid() && run == Then(old(run), CountSend(c))
      ensures CallOf(View(), c) == SendCounted(old(CallOf(View(), c).dev), old(|sendings|))
    {
      hide Records, DoDrop, DoClose, DoSupervise, DropEnabled, CloseEnabled, SupervisorEnabled, OfDrop, OfClose;
      ghost var s := View();
      tx := tx.(txAll := tx.txAll + 1);
      calls := calls[c := SendCounted(CallOf(View(), c).dev, |sendings|)];
      sendings := sendings + [Underway(c)];
      Note(s, CountSend(c));
    }

    method CountTheError(c: Cid)
      requires Valid() && CallOf(View(), c).SendCounted? && CallOf(View(), c).dev.None?
        && CallOf(View(), c).i < |sendings|
      modifies this
      ensures Valid() && run == Then(old(run), CountError(c))
      ensures CallOf(View(), c) == SendOffline(old(CallOf(View(), c).i)) && |sendings| == old(|sendings|)
    {
      hide Records, DoDrop, DoClose, DoSupervise, DropEnabled, CloseEnabled, SupervisorEnabled, OfDrop, OfClose;
      ghost var s := View();
      var i := CallOf(View(), c).i;
      tx := tx.(txErr := tx.txErr + 1);
      calls, sendings := calls[c := SendOffline(i)], sendings[i := HalfOffline(c)];
      Note(s, CountError(c));
    }

    method CountTheOffline(c: Cid)
      requires Valid() && CallOf(View(), c).SendOffline? && CallOf(View(), c).i < |sendings|
      modifies this
      ensures Valid() && run == Then(old(run), CountOffline(c)) && CallOf(View(), c) == NoCall
      ensures sendings == old(sendings[CallOf(View(), c).i := Offline])
    {
      hide Records, DoDrop, DoClose, DoSupervise, DropEnabled, CloseEnabled, SupervisorEnabled, OfDrop, OfClose;
      ghost var s := View();
      var i := CallOf(View(), c).i;
      tx := tx.(txOffline := tx.txOffline + 1);
      calls, sendings := calls[c := NoCall], sendings[i := Offline];
      Note(s, CountOffline(c));
    }

    // The device's Send, and the counter for its result.
    method SendThrough(c: Cid, ok: bool)
      requires Valid() && CallOf(View(), c).SendCounted? && CallOf(View(), c).dev.Some?
        && CallOf(View(), c).i < |sendings|
      modifies this
      ensures Valid() && run == Then(old(run), DeviceSends(c, ok))
      ensures CallOf(View(), c) == if ok then NoCall else Failing(old(CallOf(View(), c).dev.value), BySend)
      ensures sendings == old(sendings[CallOf(View(), c).i := if ok then Succeeded else Failed])
    {
      hide Records, DoDrop, DoClose, DoSupervise, DropEnabled, CloseEnabled, SupervisorEnabled, OfDrop, OfClose;
      ghost var s := View();
      var SendCounted(d, i) := CallOf(View(), c);
      if ok {
        tx := tx.(txSuccess := tx.txSuccess + 1);
        calls, sendings := calls[c := NoCall], sendings[i := Succeeded];
      } else {
        tx := tx.(txErr := tx.txErr + 1);
        calls, sendings := calls[c := Failing(d.value, BySend)], sendings[i := Failed];
      }
      Note(s, DeviceSends(c, ok));
    }

    method ReceiveFrom(c: Cid, got: Received)
      requires Valid() && CallOf(View(), c).ReceivePicked? && (CallOf(View(), c).dev.None? ==> got.Nothing?)
      modifies this
      ensures Valid() && run == Then(old(run), DeviceReceives(c, got))
      ensures CallOf(View(), c) == if got.Error? then Failing(old(CallOf(View(), c).dev.value), ByReceive) else NoCall
    {
      hide Records, DoDrop, DoClose, DoSupervise, DropEnabled, CloseEnabled, SupervisorEnabled, OfDrop, OfClose;
      ghost var s := View();
      match got {
        case Nothing =>
          calls := calls[c := NoCall];
        case Packet =>
          tx := tx.(rxAll := tx.rxAll + 1);
          calls := calls[c := NoCall];
        case Error =>
          tx := tx.(rxErrors := tx.rxErrors + 1);
          calls := calls[c := Failing(CallOf(View(), c).dev.value, ByReceive)];
      }
      Note(s, DeviceReceives(c, got));
    }

    // ---------- drop ----------

    method DetachDevice(c: Cid) returns (detached: bool)
      requires Valid() && CallOf(View(), c).Failing? && CallOf(View(), c).d < |devices|
      modifies this
      ensures Valid() && run == Then(old(run), LockDrop(c)) && sup == old(sup) && |devices| == old(|devices|)
      ensures cur != Some(old(CallOf(View(), c).d))
      ensures var Failing(d, cause) := old(CallOf(View(), c));
        && (detached <==> old(cur) == Some(d))
        && CallOf(View(), c) == if detached then Dropping(d, cause, Detached) else NoCall
    {
      hide Records, Apply, Enabled;
      LockDropEffect(View(), c);
      ghost var s := View();
      var Failing(d, cause) := CallOf(View(), c);
      detached := cur == Some(d);
      if detached {
        cur, vacated := None, c;
        calls := calls[c := Dropping(d, cause, Detached)];
        devices := devices[d := devices[d].(fate := Dropped(cause, c, Detached))];
      } else {
        calls := calls[c := NoCall];
      }
      Note(s, LockDrop(c));
    }

    method CountTheDisconnect(c: Cid)
      requires Valid() && CallOf(View(), c).Dropping? && CallOf(View(), c).stage.Detached?
        && CallOf(View(), c).d < |devices|
      modifies this
      ensures Valid() && run == Then(old(run), CountDisconnect(c))
      ensures CallOf(View(), c) == old(CallOf(View(), c)).(stage := Totaled)
    {
      hide Records, DoTraffic, DoClose, DoSupervise, TrafficEnabled, CloseEnabled, SupervisorEnabled, OfClose;
      ghost var s := View();
      var Dropping(d, cause, _) := CallOf(View(), c);
      n := n.(disconnects := n.disconnects + 1);
      calls := calls[c := Dropping(d, cause, Totaled)];
      devices := devices[d := devices[d].(fate := Dropped(cause, c, Totaled))];
      Note(s, CountDisconnect(c));
    }

    method CountTheCause(c: Cid)
      requires Valid() && CallOf(View(), c).Dropping? && CallOf(View(), c).stage.Totaled?
        && CallOf(View(), c).d < |devices|
      modifies this
      ensures Valid() && run == Then(old(run), CountCause(c))
      ensures CallOf(View(), c) == old(CallOf(View(), c)).(stage := Attributed)
    {
      hide Records, Apply, Enabled;
      CountCauseEffect(View(), c);
      ghost var s := View();
      var Dropping(d, cause, _) := CallOf(View(), c);
      if cause.BySend? {
        n := n.(bySend := n.bySend + 1);
      } else {
        n := n.(byReceive := n.byReceive + 1);
      }
      calls := calls[c := Dropping(d, cause, Attributed)];
      devices := devices[d := devices[d].(fate := Dropped(cause, c, Attributed))];
      Note(s, CountCause(c));
    }

    method CloseTheDropped(c: Cid)
      requires Valid() && CallOf(View(), c).Dropping? && CallOf(View(), c).stage.Attributed?
        && CallOf(View(), c).d < |devices|
      modifies this
      ensures Valid() && run == Then(old(run), CloseDropped(c))
      ensures CallOf(View(), c) == old(CallOf(View(), c)).(stage := Gone)
    {
      hide Records, DoTraffic, DoClose, DoSupervise, TrafficEnabled, CloseEnabled, SupervisorEnabled, OfClose;
      ghost var s := View();
      var Dropping(d, cause, _) := CallOf(View(), c);
      calls := calls[c := Dropping(d, cause, Gone)];
      devices := devices[d := Device(Dropped(cause, c, Gone), devices[d].closes + 1)];
      Note(s, CloseDropped(c));
    }

    // nudge: the wake channel has one slot, so a second nudge is coalesced.
    method Nudge(c: Cid)
      requires Valid() && (CallOf(View(), c).Closing? || (CallOf(View(), c).Dropping? && CallOf(View(), c).stage.Gone?))
      modifies this
      ensures Valid() && wake
      ensures run == Then(old(run), if old(CallOf(View(), c)).Dropping? then NudgeAfterDrop(c) else NudgeAfterClose(c))
      ensures CallOf(View(), c) ==
        if old(CallOf(View(), c)).Dropping? then NoCall else ClosingDevice(old(CallOf(View(), c)).dev)
    {
      hide Records, DoTraffic, DoSupervise, TrafficEnabled, SupervisorEnabled;
      ghost var s := View();
      wake := true;
      if CallOf(View(), c).Dropping? {
        calls := calls[c := NoCall];
        Note(s, NudgeAfterDrop(c));
      } else {
        calls := calls[c := ClosingDevice(CallOf(View(), c).dev)];
        Note(s, NudgeAfterClose(c));
      }
    }

    method Drop(c: Cid, turns: seq<Turn>)
      requires Valid() && CallOf(View(), c).Failing? && |turns| == 5
      modifies this
      ensures Valid() && run.Extends(old(run)) && CallOf(View(), c).NoCall?
      ensures cur != Some(old(CallOf(View(), c).d))
    {
      hide Records, Apply, Enabled;
      var d := CallOf(View(), c).d;
      HandsHoldDevices(run, View(), c);
      FailingIsInstalled(run, View(), c);
      var detached := DetachDevice(c);
      if !detached {
        return;
      }
      ghost var gone, detachedAt := run, View();
      ghost var before := run;
      Others(c, turns[0].steps);
      ExtendsThrough(old(run), before, run);
      HandsHoldDevices(run, View(), c);
      CountTheDisconnect(c);
      ExtendsThrough(gone, before, run);
      before := run;
      Others(c, turns[1].steps);
      ExtendsThrough(gone, before, run);
      FinishDrop(c, turns[2..], gone);
      ExtendsThrough(old(run), gone, run);
      GoneSince(gone, detachedAt, run, View(), d);
    }

    method FinishDrop(c: Cid, turns: seq<Turn>, ghost since: Run)
      requires Valid() && CallOf(View(), c).Dropping? && CallOf(View(), c).stage.Totaled? && |turns| == 3
      requires run.Extends(since)
      modifies this
      ensures Valid() && run.Extends(since) && CallOf(View(), c).NoCall?
    {
      hide Records, Apply, Enabled;
      HandsHoldDevices(run, View(), c);
      CountTheCause(c);
      ghost var before := run;
      Others(c, turns[0].steps);
      ExtendsThrough(since, before, run);
      HandsHoldDevices(run, View(), c);
      CloseTheDropped(c);
      before := run;
      Others(c, turns[1].steps);
      ExtendsThrough(since, before, run);
      Nudge(c);
    }

    // ErrOffline, a device error, or nil: whichever it is, this call has counted itself as
    // one send with that ending, and a device that failed is not the live one any more.
    method Send(c: Cid, turns: seq<Turn>) returns (sent: bool, ghost i: nat)
      requires Valid() && CallOf(View(), c).NoCall? && |turns| == 8
      modifies this
      ensures Valid() && run.Extends(old(run)) && CallOf(View(), c).NoCall?
      ensures old(|sendings|) <= i < |sendings|
      ensures sendings[i] == if sent then Succeeded else if old(cur).None? then Offline else Failed
      ensures sent ==> old(cur).Some?
      ensures !sent && old(cur).Some? ==> cur != old(cur)
    {
      hide Records, Apply, Enabled;
      ghost var start := View();
      var d := PickDevice(c, true);
      ghost var before := run;
      Others(c, turns[0].steps);
      ExtendsThrough(old(run), before, run);
      CountedSince(old(run), start, run, View());
      CountTheSend(c);
      i := CallOf(View(), c).i;
      before := run;
      Others(c, turns[1].steps);
      ExtendsThrough(old(run), before, run);
      before := run;
      if d.None? {
        FailOffline(c, turns[2]);
        sent := false;
      } else {
        sent := turns[2].deviceOk;
        TrySending(c, sent, turns[3..]);
      }
      ExtendsThrough(old(run), before, run);
    }

    // No device: the error, and then the offline counter.
    method FailOffline(c: Cid, turn: Turn)
      requires Valid() && CallOf(View(), c).SendCounted? && CallOf(View(), c).dev.None?
      modifies this
      ensures Valid() && run.Extends(old(run)) && CallOf(View(), c).NoCall?
      ensures old(CallOf(View(), c)).i < |sendings| && sendings[old(CallOf(View(), c)).i] == Offline
    {
      hide Records, Apply, Enabled;
      HandsHoldDevices(run, View(), c);
      CountTheError(c);
      ghost var before := run;
      Others(c, turn.steps);
      ExtendsThrough(old(run), before, run);
      HandsHoldDevices(run, View(), c);
      CountTheOffline(c);
    }

    // The device's Send, and drop if it fails.
    method TrySending(c: Cid, ok: bool, turns: seq<Turn>)
      requires Valid() && CallOf(View(), c).SendCounted? && CallOf(View(), c).dev.Some? && |turns| == 5
      modifies this
      ensures Valid() && run.Extends(old(run)) && CallOf(View(), c).NoCall?
      ensures var SendCounted(d, i) := old(CallOf(View(), c));
        && i < |sendings| && sendings[i] == (if ok then Succeeded else Failed)
        && (!ok ==> cur != d)
    {
      hide Records, Apply, Enabled;
      HandsHoldDevices(run, View(), c);
      ghost var i := CallOf(View(), c).i;
      SendThrough(c, ok);
      if !ok {
        ghost var failed, failedAt := run, View();
        Drop(c, turns);
        ExtendsThrough(old(run), failed, run);
        EndedSince(failed, failedAt, run, View(), i);
      }
    }

    method Receive(c: Cid, turns: seq<Turn>) returns (result: Received)
      requires Valid() && CallOf(View(), c).NoCall? && |turns| == 6
      modifies this
      ensures Valid() && run.Extends(old(run)) && CallOf(View(), c).NoCall?
      ensures result == if old(cur).None? then Nothing else turns[0].got
      ensures result.Error? ==> cur != old(cur)
    {
      hide Records, Apply, Enabled;
      var d := PickDevice(c, false);
      ghost var before := run;
      Others(c, turns[0].steps);
      ExtendsThrough(old(run), before, run);
      result := if d.None? then Nothing else turns[0].got;
      ReceiveFrom(c, result);
      if result.Error? {
        before := run;
        Drop(c, turns[1..]);
        ExtendsThrough(old(run), before, run);
      }
    }

    // ---------- Close ----------

    method LockAndClose(c: Cid)
      requires Valid() && CallOf(View(), c).NoCall? && (cur.Some? ==> cur.value < |devices|)
      modifies this
      ensures Valid() && run == Then(old(run), LockClose(c)) && closed
      ensures CallOf(View(), c) == Closing(old(cur))
    {
      hide Records, Apply, Enabled;
      LockCloseEffect(View(), c);
      ghost var s := View();
      closed := true;
      var d := cur;
      cur, vacated := None, c;
      calls := calls[c := Closing(d)];
      if d.Some? {
        devices := devices[d.value := devices[d.value].(fate := Taken(c, false))];
      }
      Note(s, LockClose(c));
    }

    method CloseTheTaken(c: Cid)
      requires Valid() && CallOf(View(), c).ClosingDevice?
      requires CallOf(View(), c).dev.Some? ==> CallOf(View(), c).dev.value < |devices|
      modifies this
      ensures Valid() && run == Then(old(run), CloseTaken(c)) && closed == old(closed) && CallOf(View(), c).NoCall?
      ensures var d := old(CallOf(View(), c).dev); d.Some? ==>
        d.value < |devices| && devices[d.value].fate == Taken(c, true)
    {
      hide Records, DoTraffic, DoDrop, DoSupervise, TrafficEnabled, DropEnabled, SupervisorEnabled;
      ghost var s := View();
      var d := CallOf(View(), c).dev;
      calls := calls[c := NoCall];
      if d.Some? {
        devices := devices[d.value := Device(Taken(c, true), devices[d.value].closes + 1)];
      }
      Note(s, CloseTaken(c));
    }

    // Afterwards the endpoint is closed and stays offline, and the device it had is closed.
    method Close(c: Cid, turns: seq<Turn>)
      requires Valid() && CallOf(View(), c).NoCall? && |turns| == 2
      modifies this
      ensures Valid() && run.Extends(old(run)) && CallOf(View(), c).NoCall? && closed && cur.None?
      ensures old(cur).Some? ==> old(cur).value < |devices| && devices[old(cur).value].closes == 1
    {
      hide Records, Apply, Enabled;
      HandsHoldDevices(run, View(), c);
      LockAndClose(c);
      ghost var locked, lockedAt := run, View();
      Others(c, turns[0].steps);
      ExtendsThrough(old(run), locked, run);
      Nudge(c);
      ghost var before := run;
      Others(c, turns[1].steps);
      ExtendsThrough(locked, before, run);
      ExtendsThrough(old(run), before, run);
      HandsHoldDevices(run, View(), c);
      ClosedSince(locked, lockedAt, run, View());
      CloseTheTaken(c);
      ClosedIsOffline(run, View());
      GoneIsClosed(run, View());
    }

    // ---------- supervise ----------

    method LookAround()
      requires Valid() && sup.Looking?
      modifies this
      ensures Valid() && run == Then(old(run), Look) && wake == old(wake)
      ensures sup == if old(closed) then Exited else if old(cur).Some? then Healthy else Trying
    {
      hide Records, DoTraffic, DoDrop, DoClose, TrafficEnabled, DropEnabled, CloseEnabled;
      ghost var s := View();
      if closed {
        sup := Exited;
      } else if cur.Some? {
        sup := Healthy;
      } else {
        sup := Trying;
      }
      Note(s, Look);
    }

    method CountTheAttempt()
      requires Valid() && sup.Trying?
      modifies this
      ensures Valid() && run == Then(old(run), Try) && wake == old(wake) && sup.Opening?
    {
      hide Records, DoTraffic, DoDrop, DoClose, TrafficEnabled, DropEnabled, CloseEnabled;
      ghost var s := View();
      n := n.(attempts := n.attempts + 1);
      sup := Opening;
      Note(s, Try);
    }

    method OpenDevice(ok: bool)
      requires Valid() && sup.Opening?
      modifies this
      ensures Valid() && run == Then(old(run), if ok then OpenSucceeds else OpenFails) && wake == old(wake)
      ensures sup == if ok then Holding(old(|devices|)) else BackingOff
      ensures ok ==> |devices| == old(|devices|) + 1
    {
      hide Records, DoTraffic, DoDrop, DoClose, TrafficEnabled, DropEnabled, CloseEnabled;
      ghost var s := View();
      if ok {
        sup := Holding(|devices|);
        devices := devices + [Device(InHand, 0)];
        Note(s, OpenSucceeds);
      } else {
        n := n.(failures := n.failures + 1);
        sup := BackingOff;
        Note(s, OpenFails);
      }
    }

    method InstallDevice() returns (installed: bool)
      requires Valid() && sup.Holding? && sup.d < |devices|
      modifies this
      ensures Valid() && run == Then(old(run), Install) && installed == !old(closed) && wake == old(wake)
      ensures sup == if installed then Installed else Rejecting(old(sup).d)
    {
      hide Records, DoTraffic, DoDrop, DoClose, TrafficEnabled, DropEnabled, CloseEnabled;
      ghost var s := View();
      var d := sup.d;
      installed := !closed;
      if closed {
        devices := devices[d := devices[d].(fate := Rejected(false))];
        sup := Rejecting(d);
      } else {
        devices := devices[d := devices[d].(fate := Live)];
        cur, sup := Some(d), Installed;
      }
      Note(s, Install);
    }

    method EndInstall()
      requires Valid() && (sup.Installed? || (sup.Rejecting? && sup.d < |devices|))
      modifies this
      ensures Valid() && run == Then(old(run), if old(sup).Installed? then CountSuccess else CloseRejected)
        && wake == old(wake)
      ensures sup == if old(sup).Installed? then Looking else Exited
    {
      hide Records, DoTraffic, DoDrop, DoClose, TrafficEnabled, DropEnabled, CloseEnabled;
      ghost var s := View();
      if sup.Installed? {
        n := n.(successes := n.successes + 1);
        sup := Looking;
        Note(s, CountSuccess);
      } else {
        devices := devices[sup.d := Device(Rejected(true), devices[sup.d].closes + 1)];
        sup := Exited;
        Note(s, CloseRejected);
      }
    }

    // A select on the context, the wake channel and, while backing off, the timer.
    method Wait(turn: Turn)
      requires Valid() && (sup.Healthy? || sup.BackingOff?)
      modifies this
      ensures Valid() && run.Extends(old(run))
      ensures sup in {Exited, Looking} || (sup == old(sup) && Waits())
      ensures sup.Looking? ==> (old(wake) && !wake) || turn.timer
      ensures (sup == old(sup) ==> wake == old(wake)) && (wake ==> old(wake))
    {
      hide Records, DoTraffic, DoDrop, DoClose, TrafficEnabled, DropEnabled, CloseEnabled;
      ghost var s := View();
      if canceled && (turn.deviceOk || !wake) {
        sup := Exited;
        Note(s, LeaveOnCancel);
      } else if wake && !(turn.timer && sup.BackingOff?) {
        wake, sup := false, Looking;
        Note(s, WakeUp);
      } else if sup.BackingOff? && turn.timer {
        sup := Looking;
        Note(s, BackoffOver);
      }
    }

    method YieldToOthers(script: seq<Turn>, ghost since: Run) returns (rest: seq<Turn>)
      requires Valid() && run.Extends(since)
      modifies this
      ensures Valid() && run.Extends(since) && sup == old(sup)
      ensures rest == if script == [] then [] else script[1..]
      ensures sup.Holding? || sup.Rejecting? ==> sup.d < |devices|
      ensures script == [] ==> wake == old(wake) && canceled == old(canceled)
    {
      hide Records, Apply, Enabled;
      rest := script;
      if rest != [] {
        OtherThanSupervisor(rest[0].steps);
        ExtendsThrough(since, old(run), run);
        rest := rest[1..];
      }
      SupervisorHoldsDevices(run, View());
    }

    // The supervisor waits, and nothing but its backoff would wake it.
    ghost predicate Waits()
      reads this
    {
      (sup.Healthy? || sup.BackingOff?) && !wake && !canceled
    }

    // The select, until a case is ready or the script of the others ends.
    method WaitUntilWoken(script: seq<Turn>, ghost since: Run) returns (rest: seq<Turn>)
      requires Valid() && (sup.Healthy? || sup.BackingOff?) && run.Extends(since)
      modifies this
      ensures Valid() && run.Extends(since) && |rest| <= |script|
      ensures sup.Exited? || Waits() || (sup.Looking? && (|rest| < |script| || (old(wake) && !wake)))
      ensures |rest| == |script| ==> wake ==> old(wake)
    {
      hide Records, Apply, Enabled;
      rest := script;
      while sup.Healthy? || sup.BackingOff?
        invariant Valid() && run.Extends(since) && |rest| <= |script|
        invariant |rest| == |script| && (sup.Healthy? || sup.BackingOff?) ==> wake == old(wake)
        invariant |rest| == |script| ==> wake ==> old(wake)
        invariant sup.Healthy? || sup.BackingOff? || sup.Exited?
          || (sup.Looking? && (|rest| < |script| || (old(wake) && !wake)))
        decreases |rest|, if sup.Healthy? || sup.BackingOff? then 1 else 0
      {
        var last := rest == [];
        var turn := if last then Turn([], false, Nothing, false) else rest[0];
        rest := YieldToOthers(rest, since);
        ghost var before := run;
        Wait(turn);
        ExtendsThrough(since, before, run);
        if last && (sup.Healthy? || sup.BackingOff?) {
          return;
        }
      }
    }

    // The supervisor's loop. It ends only when the endpoint is closed or its context is
    // done; when the script of the others ends first, the supervisor is waiting.
    method Supervise(script: seq<Turn>)
      requires Valid() && sup.Looking?
      modifies this
      ensures Valid() && run.Extends(old(run))
      ensures sup.Exited? || Waits()
      ensures sup.Exited? ==> closed || canceled
    {
      var rest := script;
      while sup.Looking?
        invariant Valid() && run.Extends(old(run))
        invariant sup.Exited? || Waits() || sup.Looking?
        decreases |rest|, if wake then 1 else 0, if sup.Looking? then 1 else 0
      {
        hide Records, Apply, Enabled;
        rest := YieldToOthers(rest, old(run));
        LookAround();
        if sup.Exited? {
          break;
        }
        if sup.Healthy? {
          rest := WaitUntilWoken(rest, old(run));
        } else {
          rest := Reopen(rest, old(run));
        }
      }
      ExitedWithReason(run, View());
    }

    // One attempt to open a device, and what becomes of it.
    method Reopen(script: seq<Turn>, ghost since: Run) returns (rest: seq<Turn>)
      requires Valid() && sup.Trying? && run.Extends(since)
      modifies this
      ensures Valid() && run.Extends(since) && |rest| <= |script|
      ensures sup.Exited? || Waits() || (sup.Looking? && (|rest| < |script| || (old(wake) && !wake)))
      ensures |rest| == |script| ==> wake ==> old(wake)
    {
      hide Records, Apply, Enabled;
      rest := YieldToOthers(script, since);
      CountTheAttempt();
      var ok := rest != [] && rest[0].deviceOk;
      rest := YieldToOthers(rest, since);
      OpenDevice(ok);
      if !ok {
        rest := WaitUntilWoken(rest, since);
        return;
      }
      rest := YieldToOthers(rest, since);
      var installed := InstallDevice();
      rest := YieldToOthers(rest, since);
      EndInstall();
    }
  }

  // What three of the steps do, written out.
  lemma LockCloseEffect(s: State, c: Cid)
    requires CallOf(s, c).NoCall? && (s.cur.Some? ==> s.cur.value < |s.devices|)
    ensures Enabled(s, LockClose(c))
    ensures Apply(s, LockClose(c)) ==
      s.(calls := s.calls[c := Closing(s.cur)], closed := true, cur := None, vacated := c,
         devices := if s.cur.None? then s.devices
                    else s.devices[s.cur.value := s.devices[s.cur.value].(fate := Taken(c, false))])
  {
    hide DoTraffic, DoDrop, DoSupervise, TrafficEnabled, DropEnabled, SupervisorEnabled;
  }

  lemma LockDropEffect(s: State, c: Cid)
    requires CallOf(s, c).Failing? && CallOf(s, c).d < |s.devices|
    ensures Enabled(s, LockDrop(c))
    ensures var Failing(d, cause) := CallOf(s, c);
      Apply(s, LockDrop(c)) ==
        if s.cur == Some(d) then
          s.(calls := s.calls[c := Dropping(d, cause, Detached)], cur := None, vacated := c,
             devices := s.devices[d := s.devices[d].(fate := Dropped(cause, c, Detached))])
        else s.(calls := s.calls[c := NoCall])
  {
    hide DoTraffic, DoClose, DoSupervise, TrafficEnabled, CloseEnabled, SupervisorEnabled, OfClose;
  }

  lemma CountCauseEffect(s: State, c: Cid)
    requires CallOf(s, c).Dropping? && CallOf(s, c).stage.Totaled? && CallOf(s, c).d < |s.devices|
    ensures Enabled(s, CountCause(c))
    ensures var Dropping(d, cause, _) := CallOf(s, c);
      Apply(s, CountCause(c)) ==
        s.(calls := s.calls[c := Dropping(d, cause, Attributed)],
           n := if cause.BySend? then s.n.(bySend := s.n.bySend + 1) else s.n.(byReceive := s.n.byReceive + 1),
           devices := s.devices[d := s.devices[d].(fate := Dropped(cause, c, Attributed))])
  {
    hide DoTraffic, DoClose, DoSupervise, TrafficEnabled, CloseEnabled, SupervisorEnabled, OfClose;
  }

  // A failing device has been installed: it is not the one being opened.
  lemma FailingIsInstalled(run: Run, s: State, c: Cid)
    requires Records(run, s) && CallOf(s, c).Failing?
    ensures s.sup != Holding(CallOf(s, c).d)
  {
    hide run.Valid, run.Last, Awake, Opens, Traffic;
    Reachable(run);
    assert Holds(s, c) && InPlace(s);
  }

  lemma GoneStaysGone(s: State, step: Step, d: Dev)
    requires Enabled(s, step) && d < |s.devices| && s.cur != Some(d) && s.sup != Holding(d)
    ensures d < |Apply(s, step).devices| && Apply(s, step).cur != Some(d) && Apply(s, step).sup != Holding(d)
  {
    if OfTraffic(step) {
      hide Apply, Enabled;
      TrafficFrame(s, step);
    } else if OfDrop(step) {
      hide Apply, Enabled;
      DropFrame(s, step);
      DropOnlyVacates(s, step);
    } else if OfClose(step) {
      hide Apply, Enabled;
      CloseFrame(s, step);
      CloseOnlyVacates(s, step);
    } else {
      SupervisorIs(s, step);
      hide Apply, Enabled;
    }
  }

  lemma DropOnlyVacates(s: State, step: Step)
    requires Enabled(s, step) && OfDrop(step)
    ensures Apply(s, step).cur == s.cur || Apply(s, step).cur.None?
    ensures |Apply(s, step).devices| == |s.devices|
  {
    DropIs(s, step);
    hide Apply, Enabled;
  }

  lemma CloseOnlyVacates(s: State, step: Step)
    requires Enabled(s, step) && OfClose(step)
    ensures Apply(s, step).cur == s.cur || Apply(s, step).cur.None?
    ensures |Apply(s, step).devices| == |s.devices|
  {
    CloseIs(s, step);
    hide Apply, Enabled;
  }

  // A device that is not live and not being installed never becomes live again.
  lemma {:induction false} GoneForGood(earlier: Run, later: Run, d: Dev)
    requires earlier.Valid() && later.Valid() && later.Extends(earlier)
    requires d < |earlier.Last().devices| && earlier.Last().cur != Some(d) && earlier.Last().sup != Holding(d)
    ensures d < |later.Last().devices| && later.Last().cur != Some(d) && later.Last().sup != Holding(d)
  {
    if later != earlier {
      GoneForGood(earlier, later.run, d);
      GoneStaysGone(later.run.Last(), later.step, d);
      hide Apply, Enabled;
    }
  }

  lemma GoneSince(earlier: Run, was: State, later: Run, now: State, d: Dev)
    requires Records(earlier, was) && Records(later, now) && later.Extends(earlier)
    requires d < |was.devices| && was.cur != Some(d) && was.sup != Holding(d)
    ensures d < |now.devices| && now.cur != Some(d)
  {
    hide earlier.Valid, earlier.Last;
    GoneForGood(earlier, later, d);
  }

  lemma GoneIsClosed(run: Run, s: State)
    requires Records(run, s)
    ensures forall d | 0 <= d < |s.devices| && Finished(s.devices[d].fate) :: s.devices[d].closes == 1
  {
    hide run.Valid, run.Last, Awake, Opens, Traffic;
    Reachable(run);
  }

  lemma EndingStays(s: State, step: Step, i: nat)
    requires Enabled(s, step) && (OfSend(step) ==> CallsSending(s, step.c))
    ensures |s.sendings| <= |Apply(s, step).sendings|
    ensures i < |s.sendings| && !Moving(s.sendings[i]) ==> Apply(s, step).sendings[i] == s.sendings[i]
  {
    OneSendingMoves(s, step);
    assert OfSend(step) && !step.CountSend? ==> Moving(s.sendings[CallOf(s, step.c).i]);
    hide Apply, Enabled;
  }

  lemma EndedSince(earlier: Run, was: State, later: Run, now: State, i: nat)
    requires Records(earlier, was) && Records(later, now) && later.Extends(earlier)
    requires i < |was.sendings| && !Moving(was.sendings[i])
    ensures i < |now.sendings| && now.sendings[i] == was.sendings[i]
  {
    hide earlier.Valid, earlier.Last;
    EndingsStay(earlier, later, i);
  }

  lemma CountedSince(earlier: Run, was: State, later: Run, now: State)
    requires Records(earlier, was) && Records(later, now) && later.Extends(earlier)
    ensures |was.sendings| <= |now.sendings|
  {
    hide earlier.Valid, earlier.Last;
    HistoryGrows(earlier, later);
  }

  // How a send has ended is not changed any more.
  lemma {:induction false} EndingsStay(earlier: Run, later: Run, i: nat)
    requires earlier.Valid() && later.Valid() && later.Extends(earlier)
    requires i < |earlier.Last().sendings| && !Moving(earlier.Last().sendings[i])
    ensures i < |later.Last().sendings| && later.Last().sendings[i] == earlier.Last().sendings[i]
  {
    if later != earlier {
      EndingsStay(earlier, later.run, i);
      Reachable(later.run);
      assert OfSend(later.step) ==> CallsSending(later.run.Last(), later.step.c);
      EndingStays(later.run.Last(), later.step, i);
      hide Apply, Enabled, Inv;
    }
  }

  lemma {:induction false} HistoryGrows(earlier: Run, later: Run)
    requires earlier.Valid() && later.Valid() && later.Extends(earlier)
    ensures |earlier.Last().sendings| <= |later.Last().sendings|
  {
    if later != earlier {
      HistoryGrows(earlier, later.run);
      OneSendingMoves(later.run.Last(), later.step);
      hide Apply, Enabled;
    }
  }

  ghost predicate HasAReason(s: State) {
    s.sup.Exited? || s.sup.Rejecting? ==> s.closed || s.canceled
  }

  lemma LeavingHasAReason(s: State, step: Step)
    requires Enabled(s, step) && HasAReason(s)
    ensures HasAReason(Apply(s, step))
  {
    if OfTraffic(step) {
      hide Apply, Enabled;
      TrafficFrame(s, step);
    } else if OfDrop(step) {
      hide Apply, Enabled;
      DropFrame(s, step);
    } else if OfClose(step) {
      hide DoTraffic, DoDrop, DoSupervise, TrafficEnabled, DropEnabled, SupervisorEnabled;
    } else {
      hide DoTraffic, DoDrop, DoClose, TrafficEnabled, DropEnabled, CloseEnabled;
    }
  }

  lemma {:induction false} ExitHasAReason(run: Run)
    requires run.Valid()
    ensures run.Last().sup.Exited? || run.Last().sup.Rejecting? ==> run.Last().closed || run.Last().canceled
  {
    if run.Then? {
      hide Apply, Enabled;
      ExitHasAReason(run.run);
      LeavingHasAReason(run.run.Last(), run.step);
    }
  }

  lemma ExitedWithReason(run: Run, s: State)
    requires Records(run, s)
    ensures HasAReason(s)
  {
    hide run.Valid, run.Last;
    ExitHasAReason(run);
  }

  lemma SupervisorHoldsDevices(run: Run, s: State)
    requires Records(run, s)
    ensures s.sup.Holding? || s.sup.Rejecting? ==> s.sup.d < |s.devices|
  {
    hide run.Valid, run.Last, Awake, Opens, Traffic;
    Reachable(run);
  }

  lemma ClosedIsOffline(run: Run, s: State)
    requires Records(run, s) && s.closed
    ensures s.cur.None?
  {
    hide run.Valid, run.Last;
    ClosedStaysOffline(run);
  }

  lemma ClosedOnceIsClosed(s: State, step: Step)
    requires Enabled(s, step) && s.closed
    ensures Apply(s, step).closed
  {
    hide Apply, Enabled;
    if OfTraffic(step) {
      TrafficFrame(s, step);
    } else if OfDrop(step) {
      DropFrame(s, step);
    } else if OfClose(step) {
      CloseKeepsClosed(s, step);
    } else {
      SupervisorFrame(s, step);
    }
  }

  lemma CloseKeepsClosed(s: State, step: Step)
    requires Enabled(s, step) && OfClose(step) && s.closed
    ensures Apply(s, step).closed
  {
    hide DoTraffic, DoDrop, DoSupervise, TrafficEnabled, DropEnabled, SupervisorEnabled;
  }

  lemma {:induction false} ClosedForGood(earlier: Run, later: Run)
    requires earlier.Valid() && later.Valid() && later.Extends(earlier) && earlier.Last().closed
    ensures later.Last().closed
  {
    if later != earlier {
      ClosedForGood(earlier, later.run);
      ClosedOnceIsClosed(later.run.Last(), later.step);
      hide Apply, Enabled;
    }
  }

  lemma ClosedSince(earlier: Run, was: State, later: Run, now: State)
    requires Records(earlier, was) && Records(later, now) && later.Extends(earlier) && was.closed
    ensures now.closed
  {
    hide earlier.Valid, earlier.Last;
    ClosedForGood(earlier, later);
  }

  // Whoever has a device in hand has one that exists.
  lemma HandsHoldDevices(run: Run, s: State, c: Cid)
    requires Records(run, s)
    ensures var call := CallOf(s, c);
      && (call.Failing? || call.Dropping? ==> call.d < |s.devices|)
      && ((call.ClosingDevice? || call.Closing?) && call.dev.Some? ==> call.dev.value < |s.devices|)
      && (call.SendCounted? || call.SendOffline? ==> call.i < |s.sendings|)
      && (s.cur.Some? ==> s.cur.value < |s.devices|)
  {
    hide run.Valid, run.Last, Awake, Opens;
    Reachable(run);
    assert Holds(s, c) && CallsSending(s, c);
  }
}
