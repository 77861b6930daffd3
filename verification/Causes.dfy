/** What the counters of lib/site/radio/reconnect.go count, step by step and device by
    device, and that every disconnect is put down to what really caused it. */
module Causes {
  import opened Options
  import opened Reconnect

  // ---------- the counters of a run ----------

  datatype Happening =
    | SendBegan
    | SendWorked
    | SendFailed
    | NothingToSend
    | FoundOffline
    | PacketRead
    | ReadFailed
    | OpenTried
    | OpenFailed
    | OpenedForGood
    | Disconnected

  predicate Happens(step: Step, h: Happening) {
    match h
    case SendBegan => step.CountSend?
    case SendWorked => step.DeviceSends? && step.ok
    case SendFailed => step.DeviceSends? && !step.ok
    case NothingToSend => step.CountError?
    case FoundOffline => step.CountOffline?
    case PacketRead => step.DeviceReceives? && step.got.Packet?
    case ReadFailed => step.DeviceReceives? && step.got.Error?
    case OpenTried => step.Try?
    case OpenFailed => step.OpenFails?
    case OpenedForGood => step.CountSuccess?
    case Disconnected => step.CountDisconnect?
  }

  function Once(step: Step, h: Happening): nat {
    if Happens(step, h) then 1 else 0
  }

  function Number(run: Run, h: Happening): nat {
    if run.First? then 0 else Number(run.run, h) + Once(run.step, h)
  }

  // The packet counters move with these events, and the connection counters stay.
  predicate Carries(s: State, step: Step)
    requires Enabled(s, step)
  {
    var t, t' := s.tx, Apply(s, step).tx;
    && Apply(s, step).n == s.n
    && t'.txAll == t.txAll + Once(step, SendBegan)
    && t'.txSuccess == t.txSuccess + Once(step, SendWorked)
    && t'.txErr == t.txErr + Once(step, SendFailed) + Once(step, NothingToSend)
    && t'.txOffline == t.txOffline + Once(step, FoundOffline)
    && t'.rxAll == t.rxAll + Once(step, PacketRead)
    && t'.rxErrors == t.rxErrors + Once(step, ReadFailed)
  }

  lemma SendsCount(s: State, step: Step)
    requires Enabled(s, step) && OfSend(step)
    ensures Carries(s, step)
  {
    TrafficIs(s, step);
    hide Apply, Enabled;
  }

  lemma ReceivesCount(s: State, step: Step)
    requires Enabled(s, step) && OfTraffic(step) && !OfSend(step)
    ensures Carries(s, step)
  {
    TrafficIs(s, step);
    hide Apply, Enabled;
  }

  lemma TrafficCounts(s: State, step: Step)
    requires Enabled(s, step) && OfTraffic(step)
    ensures Carries(s, step)
  {
    hide Carries, Apply, Enabled;
    if OfSend(step) {
      SendsCount(s, step);
    } else {
      ReceivesCount(s, step);
    }
  }

  // The connection counters move with these events, and the packet counters stay.
  predicate Connects(s: State, step: Step)
    requires Enabled(s, step)
  {
    var n, n' := s.n, Apply(s, step).n;
    && Apply(s, step).tx == s.tx
    && n'.attempts == n.attempts + Once(step, OpenTried)
    && n'.failures == n.failures + Once(step, OpenFailed)
    && n'.successes == n.successes + Once(step, OpenedForGood)
    && n'.disconnects == n.disconnects + Once(step, Disconnected)
  }

  lemma DropCounts(s: State, step: Step)
    requires Enabled(s, step) && OfDrop(step)
    ensures Connects(s, step)
  {
    DropIs(s, step);
    hide Apply, Enabled, CallOf;
  }

  lemma CloseCounts(s: State, step: Step)
    requires Enabled(s, step) && OfClose(step)
    ensures Connects(s, step)
  {
    hide Enabled, Apply;
    CloseFrame(s, step);
  }

  lemma SupervisorCounts(s: State, step: Step)
    requires Enabled(s, step) && OfSupervisor(step)
    ensures Connects(s, step)
  {
    SupervisorIs(s, step);
    hide Apply, Enabled, CallOf;
  }

  lemma ConnectionsCount(s: State, step: Step)
    requires Enabled(s, step) && !OfTraffic(step)
    ensures Connects(s, step)
  {
    hide Connects, Apply, Enabled;
    if OfDrop(step) {
      DropCounts(s, step);
    } else if OfClose(step) {
      CloseCounts(s, step);
    } else {
      SupervisorCounts(s, step);
    }
  }

  lemma ConnectionsLeaveTraffic(step: Step)
    requires !OfTraffic(step)
    ensures Once(step, SendBegan) == Once(step, SendWorked) == Once(step, SendFailed) == Once(step, NothingToSend) == 0
    ensures Once(step, FoundOffline) == Once(step, PacketRead) == Once(step, ReadFailed) == 0
  {
  }

  lemma TrafficLeavesConnections(step: Step)
    requires OfTraffic(step)
    ensures Once(step, OpenTried) == Once(step, OpenFailed) == Once(step, OpenedForGood) ==
      Once(step, Disconnected) == 0
  {
  }

  // Each counter is the number of times its event has happened.
  lemma {:induction false} CountersCount(run: Run)
    requires run.Valid()
    ensures var t, n := run.Last().tx, run.Last().n;
      && t.txAll == Number(run, SendBegan) && t.txSuccess == Number(run, SendWorked)
      && t.txErr == Number(run, SendFailed) + Number(run, NothingToSend)
      && t.txOffline == Number(run, FoundOffline)
      && t.rxAll == Number(run, PacketRead) && t.rxErrors == Number(run, ReadFailed)
      && n.attempts == Number(run, OpenTried) && n.failures == Number(run, OpenFailed)
      && n.successes == Number(run, OpenedForGood) && n.disconnects == Number(run, Disconnected)
  {
    if run.Then? {
      hide Apply, Enabled, Once, OfTraffic;
      CountersCount(run.run);
      if OfTraffic(run.step) {
        TrafficCounts(run.run.Last(), run.step);
        TrafficLeavesConnections(run.step);
      } else {
        ConnectionsCount(run.run.Last(), run.step);
        ConnectionsLeaveTraffic(run.step);
      }
    }
  }

  // ---------- the causes of disconnects ----------

  // The goroutine has had this error of this device.
  ghost predicate Had(run: Run, c: Cid, d: Dev, cause: Cause)
    requires run.Valid()
  {
    run.Then? &&
    (Had(run.run, c, d, cause)
     || (match cause
         case BySend =>
           run.step == DeviceSends(c, false) && CallOf(run.run.Last(), c).SendCounted?
           && CallOf(run.run.Last(), c).dev == Some(d)
         case ByReceive =>
           run.step == DeviceReceives(c, Error) && CallOf(run.run.Last(), c).ReceivePicked?
           && CallOf(run.run.Last(), c).dev == Some(d)))
  }

  ghost predicate CallBlames(run: Run, c: Cid)
    requires run.Valid()
  {
    match CallOf(run.Last(), c)
    case Failing(d, cause) => Had(run, c, d, cause)
    case Dropping(d, cause, _) => Had(run, c, d, cause)
    case _ => true
  }

  ghost predicate DeviceBlames(run: Run, d: Dev)
    requires run.Valid() && d < |run.Last().devices|
  {
    match run.Last().devices[d].fate
    case Dropped(cause, c, _) => Had(run, c, d, cause)
    case _ => true
  }

  // Where a call that fails comes from.
  predicate Fails(s: State, step: Step, c: Cid)
    requires Enabled(s, step)
  {
    var call := CallOf(Apply(s, step), c);
    && !call.Dropping?
    && (call.Failing? ==>
          || (call.cause.BySend? && step == DeviceSends(c, false)
              && CallOf(s, c).SendCounted? && CallOf(s, c).dev == Some(call.d))
          || (call.cause.ByReceive? && step == DeviceReceives(c, Error)
              && CallOf(s, c).ReceivePicked? && CallOf(s, c).dev == Some(call.d)))
  }

  lemma FailsBySend(s: State, step: Step)
    requires Enabled(s, step) && OfSend(step)
    ensures Fails(s, step, step.c)
  {
    TrafficIs(s, step);
    hide Apply, Enabled;
  }

  lemma FailsByReceive(s: State, step: Step)
    requires Enabled(s, step) && OfTraffic(step) && !OfSend(step)
    ensures Fails(s, step, step.c)
  {
    TrafficIs(s, step);
    hide Apply, Enabled;
  }

  lemma FailingFrom(s: State, step: Step)
    requires Enabled(s, step) && OfTraffic(step)
    ensures Fails(s, step, step.c)
  {
    hide Apply, Enabled, Fails;
    if OfSend(step) {
      FailsBySend(s, step);
    } else {
      FailsByReceive(s, step);
    }
  }

  lemma TrafficBlames(run: Run, step: Step)
    requires Then(run, step).Valid() && OfTraffic(step)
    ensures CallBlames(Then(run, step), step.c)
  {
    FailingFrom(run.Last(), step);
    assert Then(run, step).Last() == Apply(run.Last(), step);
    hide Apply, Enabled, run.Valid, run.Last, OfTraffic, CallOf;
  }

  lemma DroppingFrom(s: State, step: Step)
    requires Enabled(s, step) && OfDrop(step)
    ensures var was, call := CallOf(s, step.c), CallOf(Apply(s, step), step.c);
      && !call.Failing?
      && (call.Dropping? ==> (was.Failing? || was.Dropping?) && was.d == call.d && was.cause == call.cause)
  {
    DropIs(s, step);
    hide Apply, Enabled;
  }

  lemma DropBlames(run: Run, step: Step)
    requires Then(run, step).Valid() && OfDrop(step) && CallBlames(run, step.c)
    ensures CallBlames(Then(run, step), step.c)
  {
    DroppingFrom(run.Last(), step);
    assert Then(run, step).Last() == Apply(run.Last(), step);
    hide Apply, Enabled, run.Valid, run.Last, OfDrop, CallOf;
  }

  lemma ClosingFails(s: State, step: Step)
    requires Enabled(s, step) && OfClose(step)
    ensures !CallOf(Apply(s, step), step.c).Failing? && !CallOf(Apply(s, step), step.c).Dropping?
  {
    CloseIs(s, step);
    hide Apply, Enabled;
  }

  lemma CloseBlames(run: Run, step: Step)
    requires Then(run, step).Valid() && OfClose(step)
    ensures CallBlames(Then(run, step), step.c)
  {
    ClosingFails(run.Last(), step);
    assert Then(run, step).Last() == Apply(run.Last(), step);
    hide Apply, Enabled, run.Valid, run.Last, OfClose, CallOf;
  }

  lemma BlameStays(run: Run, step: Step, c: Cid)
    requires run.Valid() && Enabled(run.Last(), step) && CallBlames(run, c) && !Moves(step, c)
    ensures CallBlames(Then(run, step), c)
  {
    OtherCallsStay(run.Last(), step, c);
    assert Then(run, step).Last() == Apply(run.Last(), step);
    hide Apply, Enabled, run.Valid, run.Last;
  }

  lemma {:induction false} EveryCallBlames(run: Run, c: Cid)
    requires run.Valid()
    ensures CallBlames(run, c)
  {
    if run.Then? {
      EveryCallBlames(run.run, c);
      hide CallBlames, Apply, Enabled;
      if !Moves(run.step, c) {
        BlameStays(run.run, run.step, c);
      } else if OfTraffic(run.step) {
        TrafficBlames(run.run, run.step);
      } else if OfDrop(run.step) {
        DropBlames(run.run, run.step);
      } else {
        CloseBlames(run.run, run.step);
      }
    }
  }

  // A fate that says Dropped says so since before, or comes from a call that drops.
  predicate DroppedBefore(s: State, step: Step, d: Dev, cause: Cause, c: Cid)
    requires Enabled(s, step)
  {
    || (d < |s.devices| && s.devices[d].fate.Dropped? && s.devices[d].fate.cause == cause
        && s.devices[d].fate.who == c)
    || (OfDrop(step) && step.c == c && (CallOf(s, c).Failing? || CallOf(s, c).Dropping?)
        && CallOf(s, c).d == d && CallOf(s, c).cause == cause)
  }

  lemma DroppedByDrop(s: State, step: Step, d: Dev)
    requires Enabled(s, step) && OfDrop(step) && d < |Apply(s, step).devices|
    requires Apply(s, step).devices[d].fate.Dropped?
    ensures DroppedBefore(s, step, d, Apply(s, step).devices[d].fate.cause, Apply(s, step).devices[d].fate.who)
  {
    DropIs(s, step);
    hide Apply, Enabled;
  }

  lemma DroppedByNobody(s: State, step: Step, d: Dev)
    requires Enabled(s, step) && (OfClose(step) || OfSupervisor(step)) && d < |Apply(s, step).devices|
    requires Apply(s, step).devices[d].fate.Dropped?
    ensures DroppedBefore(s, step, d, Apply(s, step).devices[d].fate.cause, Apply(s, step).devices[d].fate.who)
  {
    if OfClose(step) {
      CloseIs(s, step);
    } else {
      SupervisorIs(s, step);
    }
    hide Apply, Enabled, OfDrop, CallOf;
  }

  lemma DroppedFrom(s: State, step: Step, d: Dev)
    requires Enabled(s, step) && d < |Apply(s, step).devices| && Apply(s, step).devices[d].fate.Dropped?
    ensures DroppedBefore(s, step, d, Apply(s, step).devices[d].fate.cause, Apply(s, step).devices[d].fate.who)
  {
    hide Apply, Enabled;
    if OfTraffic(step) {
      TrafficFrame(s, step);
    } else if OfDrop(step) {
      DroppedByDrop(s, step, d);
    } else {
      DroppedByNobody(s, step, d);
    }
  }

  // Every device that has been dropped is put down to the error that dropped it: a Send
  // or a Receive of that device, by the goroutine that dropped it.
  lemma {:induction false} DisconnectsHaveTheirCause(run: Run, d: Dev)
    requires run.Valid() && d < |run.Last().devices| && run.Last().devices[d].fate.Dropped?
    ensures var Dropped(cause, c, _) := run.Last().devices[d].fate; Had(run, c, d, cause)
  {
    assert run.Then?;
    DroppedFrom(run.run.Last(), run.step, d);
    var s := run.run.Last();
    var Dropped(cause, c, _) := run.Last().devices[d].fate;
    if d < |s.devices| && s.devices[d].fate.Dropped? && s.devices[d].fate.cause == cause && s.devices[d].fate.who == c {
      DisconnectsHaveTheirCause(run.run, d);
    } else {
      EveryCallBlames(run.run, c);
    }
    hide Apply, Enabled;
  }

  // ---------- the devices behind the counters ----------

  ghost function Those(devices: seq<Device>, k: Kind): set<Dev> {
    set d | 0 <= d < |devices| && Is(devices[d].fate, k)
  }

  lemma ThoseGrow(devices: seq<Device>, k: Kind)
    requires devices != []
    ensures var n := |devices| - 1;
      Those(devices, k) == Those(devices[..n], k) + if Is(devices[n].fate, k) then {n} else {}
  {
    hide Is;
    var n := |devices| - 1;
    assert forall d | 0 <= d < n :: devices[..n][d] == devices[d];
  }

  lemma {:induction false} TallyIs(devices: seq<Device>, k: Kind)
    ensures Tally(devices, k) == |Those(devices, k)|
  {
    hide Is;
    if devices == [] {
      assert Those(devices, k) == {};
    } else {
      ThoseGrow(devices, k);
      assert |devices| - 1 !in Those(devices[..|devices| - 1], k);
      hide Those;
      TallyIs(devices[..|devices| - 1], k);
    }
  }

  // When no call and no open is in progress: every success is a device that has been
  // dropped, taken by Close, or is live; and the disconnects after a failed Send and after a
  // failed Receive are the devices dropped for it.
  lemma CountersAreDevices(run: Run)
    requires run.Valid() && Idle(run.Last()) && !run.Last().sup.Installed?
    ensures var s := run.Last();
      && s.n.successes ==
           s.n.disconnects + (if s.cur.Some? then 1 else 0)
           + |set d | 0 <= d < |s.devices| && s.devices[d].fate.Taken?|
      && s.n.bySend == |set d | 0 <= d < |s.devices| && s.devices[d].fate.Dropped? && s.devices[d].fate.cause.BySend?|
      && s.n.byReceive ==
           |set d | 0 <= d < |s.devices| && s.devices[d].fate.Dropped? && s.devices[d].fate.cause.ByReceive?|
      && s.n.attempts ==
           s.n.successes + s.n.failures + |set d | 0 <= d < |s.devices| && s.devices[d].fate.Rejected?|
           + if s.sup.Opening? || s.sup.Holding? then 1 else 0
  {
    var s := run.Last();
    OpensAddUp(run);
    Reachable(run);
    AllGone(s);
    OpensAreTallied(s);
    hide run.Valid, run.Last, Inv, Tally;
    TallyIs(s.devices, IsTaken);
    TallyIs(s.devices, IsRejected);
    TallyIs(s.devices, IsAttributed(BySend));
    TallyIs(s.devices, IsAttributed(ByReceive));
    assert Those(s.devices, IsTaken) == set d | 0 <= d < |s.devices| && s.devices[d].fate.Taken?;
    assert Those(s.devices, IsRejected) == set d | 0 <= d < |s.devices| && s.devices[d].fate.Rejected?;
    assert Those(s.devices, IsAttributed(BySend)) ==
      set d | 0 <= d < |s.devices| && s.devices[d].fate.Dropped? && s.devices[d].fate.cause.BySend?;
    assert Those(s.devices, IsAttributed(ByReceive)) ==
      set d | 0 <= d < |s.devices| && s.devices[d].fate.Dropped? && s.devices[d].fate.cause.ByReceive?;
  }

  lemma AllGone(s: State)
    requires Inv(s) && Idle(s)
    ensures forall d | 0 <= d < |s.devices| && s.devices[d].fate.Dropped? :: s.devices[d].fate.stage.Gone?
  {
    hide Awake, Opens, Traffic;
    forall d: Dev | d < |s.devices| && s.devices[d].fate.Dropped? ensures s.devices[d].fate.stage.Gone? {
      assert Held(s, d);
    }
  }

  lemma OpensAreTallied(s: State)
    requires Inv(s)
    ensures s.n.bySend == Tally(s.devices, IsAttributed(BySend))
    ensures s.n.byReceive == Tally(s.devices, IsAttributed(ByReceive))
  {
    hide Owned, Awake, Traffic, Tally;
  }
}
