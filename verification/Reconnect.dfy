/** The reconnecting dongle of lib/site/radio/reconnect.go as a state machine: calls of
    Send, Receive and Close, and the supervisor, one lock section, channel operation,
    counter or device call at a time. */
module Reconnect {
  import opened Options

  type Dev = nat   // a device that open has returned, by the number of that open
  type Cid = nat   // a goroutine that calls the dongle

  datatype Cause = BySend | ByReceive

  // How far drop has got with the device it has detached.
  datatype Stage = Detached | Totaled | Attributed | Gone

  // What has become of a device, and which goroutine has it in its hands.
  datatype Fate =
    | InHand                                      // of the supervisor, not yet installed
    | Live
    | Dropped(cause: Cause, who: Cid, stage: Stage)
    | Taken(who: Cid, gone: bool)                  // by Close
    | Rejected(gone: bool)                        // opened into a closed endpoint

  datatype Device = Device(fate: Fate, closes: nat)

  // A call of Send that has been counted.
  datatype Sending = Underway(who: Cid) | Succeeded | Failed | HalfOffline(who: Cid) | Offline

  datatype Call =
    | NoCall
    | SendPicked(dev: Option<Dev>)
    | SendCounted(dev: Option<Dev>, i: nat)
    | SendOffline(i: nat)
    | ReceivePicked(dev: Option<Dev>)
    | Failing(d: Dev, cause: Cause)               // about to lock in drop
    | Dropping(d: Dev, cause: Cause, stage: Stage)
    | Closing(dev: Option<Dev>)                     // Close has unlocked
    | ClosingDevice(dev: Option<Dev>)               // and nudged

  datatype Supervisor =
    | Looking
    | Healthy
    | Trying
    | Opening
    | Holding(d: Dev)
    | Installed
    | Rejecting(d: Dev)
    | BackingOff
    | Exited

  datatype Connections = ConnectionCounts(attempts: nat, successes: nat, failures: nat,
                                disconnects: nat, bySend: nat, byReceive: nat)

  datatype Packets = PacketCounts(txAll: nat, txSuccess: nat, txErr: nat, txOffline: nat, rxAll: nat, rxErrors: nat)

  // devices and sendings are history, as is vacated: who took the device away last.
  datatype State = State(cur: Option<Dev>, closed: bool, wake: bool, canceled: bool, sup: Supervisor,
                         calls: map<Cid, Call>, n: Connections, tx: Packets,
                         devices: seq<Device>, sendings: seq<Sending>, vacated: Cid)

  datatype Received = Nothing | Packet | Error

  datatype Step =
    | CancelContext
    // Send
    | PickForSend(c: Cid)
    | CountSend(c: Cid)
    | CountError(c: Cid)
    | CountOffline(c: Cid)
    | DeviceSends(c: Cid, ok: bool)
    // Receive
    | PickForReceive(c: Cid)
    | DeviceReceives(c: Cid, got: Received)
    // drop
    | LockDrop(c: Cid)
    | CountDisconnect(c: Cid)
    | CountCause(c: Cid)
    | CloseDropped(c: Cid)
    | NudgeAfterDrop(c: Cid)
    // Close
    | LockClose(c: Cid)
    | NudgeAfterClose(c: Cid)
    | CloseTaken(c: Cid)
    // supervise
    | Look
    | Try
    | OpenFails
    | OpenSucceeds
    | Install
    | CountSuccess
    | CloseRejected
    | WakeUp
    | BackoffOver
    | LeaveOnCancel

  function CallOf(s: State, c: Cid): Call {
    if c in s.calls then s.calls[c] else NoCall
  }

  predicate OfTraffic(step: Step) {
    step.PickForSend? || step.CountSend? || step.CountError? || step.CountOffline? || step.DeviceSends?
    || step.PickForReceive? || step.DeviceReceives?
  }

  predicate OfDrop(step: Step) {
    step.LockDrop? || step.CountDisconnect? || step.CountCause? || step.CloseDropped? || step.NudgeAfterDrop?
  }

  predicate OfClose(step: Step) {
    step.LockClose? || step.NudgeAfterClose? || step.CloseTaken?
  }

  predicate OfSupervisor(step: Step) {
    !OfTraffic(step) && !OfDrop(step) && !OfClose(step)
  }

  predicate OfSend(step: Step) {
    step.CountSend? || step.CountError? || step.CountOffline? || step.DeviceSends?
  }

  predicate TrafficEnabled(s: State, step: Step) {
    match step
    case PickForSend(c) => CallOf(s, c).NoCall?
    case CountSend(c) => CallOf(s, c).SendPicked?
    case CountError(c) => CallOf(s, c).SendCounted? && CallOf(s, c).dev.None? && CallOf(s, c).i < |s.sendings|
    case CountOffline(c) => CallOf(s, c).SendOffline? && CallOf(s, c).i < |s.sendings|
    case DeviceSends(c, _) => CallOf(s, c).SendCounted? && CallOf(s, c).dev.Some? && CallOf(s, c).i < |s.sendings|
    case PickForReceive(c) => CallOf(s, c).NoCall?
    case DeviceReceives(c, got) => CallOf(s, c).ReceivePicked? && (CallOf(s, c).dev.None? ==> got.Nothing?)
    case _ => false
  }

  predicate DropEnabled(s: State, step: Step) {
    match step
    case LockDrop(c) => CallOf(s, c).Failing? && CallOf(s, c).d < |s.devices|
    case CountDisconnect(c) => CallOf(s, c).Dropping? && CallOf(s, c).stage.Detached? && CallOf(s, c).d < |s.devices|
    case CountCause(c) => CallOf(s, c).Dropping? && CallOf(s, c).stage.Totaled? && CallOf(s, c).d < |s.devices|
    case CloseDropped(c) => CallOf(s, c).Dropping? && CallOf(s, c).stage.Attributed? && CallOf(s, c).d < |s.devices|
    case NudgeAfterDrop(c) => CallOf(s, c).Dropping? && CallOf(s, c).stage.Gone?
    case _ => false
  }

  predicate CloseEnabled(s: State, step: Step) {
    match step
    case LockClose(c) => CallOf(s, c).NoCall? && (s.cur.Some? ==> s.cur.value < |s.devices|)
    case NudgeAfterClose(c) => CallOf(s, c).Closing?
    case CloseTaken(c) => CallOf(s, c).ClosingDevice?
      && (CallOf(s, c).dev.Some? ==> CallOf(s, c).dev.value < |s.devices|)
    case _ => false
  }

  predicate SupervisorEnabled(s: State, step: Step) {
    match step
    case CancelContext => true
    case Look => s.sup.Looking?
    case Try => s.sup.Trying?
    case OpenFails => s.sup.Opening?
    case OpenSucceeds => s.sup.Opening?
    case Install => s.sup.Holding? && s.sup.d < |s.devices|
    case CountSuccess => s.sup.Installed?
    case CloseRejected => s.sup.Rejecting? && s.sup.d < |s.devices|
    case WakeUp => (s.sup.Healthy? || s.sup.BackingOff?) && s.wake
    case BackoffOver => s.sup.BackingOff?
    case LeaveOnCancel => (s.sup.Healthy? || s.sup.BackingOff?) && s.canceled
    case _ => false
  }

  predicate Enabled(s: State, step: Step) {
    if OfTraffic(step) then TrafficEnabled(s, step)
    else if OfDrop(step) then DropEnabled(s, step)
    else if OfClose(step) then CloseEnabled(s, step)
    else SupervisorEnabled(s, step)
  }

  function SetCall(s: State, c: Cid, call: Call): State {
    s.(calls := s.calls[c := call])
  }

  function SetFate(s: State, d: Dev, fate: Fate): State
    requires d < |s.devices|
  {
    s.(devices := s.devices[d := s.devices[d].(fate := fate)])
  }

  // The device's own Close.
  function CloseDevice(s: State, d: Dev, fate: Fate): State
    requires d < |s.devices|
  {
    s.(devices := s.devices[d := Device(fate, s.devices[d].closes + 1)])
  }

  function SetSending(s: State, i: nat, sending: Sending): State
    requires i < |s.sendings|
  {
    s.(sendings := s.sendings[i := sending])
  }

  function DoTraffic(s: State, step: Step): State
    requires TrafficEnabled(s, step)
  {
    match step
    case PickForSend(c) => SetCall(s, c, SendPicked(s.cur))
    case CountSend(c) =>
      SetCall(s, c, SendCounted(CallOf(s, c).dev, |s.sendings|))
      .(sendings := s.sendings + [Underway(c)], tx := s.tx.(txAll := s.tx.txAll + 1))
    case CountError(c) =>
      SetSending(SetCall(s, c, SendOffline(CallOf(s, c).i)), CallOf(s, c).i, HalfOffline(c))
      .(tx := s.tx.(txErr := s.tx.txErr + 1))
    case CountOffline(c) =>
      SetSending(SetCall(s, c, NoCall), CallOf(s, c).i, Offline).(tx := s.tx.(txOffline := s.tx.txOffline + 1))
    case DeviceSends(c, ok) =>
      var SendCounted(d, i) := CallOf(s, c);
      if ok then SetSending(SetCall(s, c, NoCall), i, Succeeded).(tx := s.tx.(txSuccess := s.tx.txSuccess + 1))
      else SetSending(SetCall(s, c, Failing(d.value, BySend)), i, Failed).(tx := s.tx.(txErr := s.tx.txErr + 1))
    case PickForReceive(c) => SetCall(s, c, ReceivePicked(s.cur))
    case DeviceReceives(c, got) =>
      (match got
       case Nothing => SetCall(s, c, NoCall)
       case Packet => SetCall(s, c, NoCall).(tx := s.tx.(rxAll := s.tx.rxAll + 1))
       case Error =>
         SetCall(s, c, Failing(CallOf(s, c).dev.value, ByReceive)).(tx := s.tx.(rxErrors := s.tx.rxErrors + 1)))
  }

  function DoDrop(s: State, step: Step): State
    requires DropEnabled(s, step)
  {
    match step
    case LockDrop(c) =>
      var Failing(d, cause) := CallOf(s, c);
      if s.cur != Some(d) then SetCall(s, c, NoCall)
      else
        SetFate(SetCall(s, c, Dropping(d, cause, Detached)), d, Dropped(cause, c, Detached))
        .(cur := None, vacated := c)
    case CountDisconnect(c) =>
      var Dropping(d, cause, _) := CallOf(s, c);
      SetFate(SetCall(s, c, Dropping(d, cause, Totaled)), d, Dropped(cause, c, Totaled))
      .(n := s.n.(disconnects := s.n.disconnects + 1))
    case CountCause(c) =>
      var Dropping(d, cause, _) := CallOf(s, c);
      SetFate(SetCall(s, c, Dropping(d, cause, Attributed)), d, Dropped(cause, c, Attributed))
      .(n := if cause.BySend? then s.n.(bySend := s.n.bySend + 1) else s.n.(byReceive := s.n.byReceive + 1))
    case CloseDropped(c) =>
      var Dropping(d, cause, _) := CallOf(s, c);
      CloseDevice(SetCall(s, c, Dropping(d, cause, Gone)), d, Dropped(cause, c, Gone))
    case NudgeAfterDrop(c) => SetCall(s, c, NoCall).(wake := true)
  }

  function DoClose(s: State, step: Step): State
    requires CloseEnabled(s, step)
  {
    match step
    case LockClose(c) =>
      var s1 := SetCall(s, c, Closing(s.cur)).(closed := true, cur := None, vacated := c);
      if s.cur.Some? then SetFate(s1, s.cur.value, Taken(c, false)) else s1
    case NudgeAfterClose(c) => SetCall(s, c, ClosingDevice(CallOf(s, c).dev)).(wake := true)
    case CloseTaken(c) =>
      if CallOf(s, c).dev.Some? then CloseDevice(SetCall(s, c, NoCall), CallOf(s, c).dev.value, Taken(c, true))
      else SetCall(s, c, NoCall)
  }

  function DoSupervise(s: State, step: Step): State
    requires SupervisorEnabled(s, step)
  {
    match step
    case CancelContext => s.(canceled := true)
    case Look => s.(sup := if s.closed then Exited else if s.cur.Some? then Healthy else Trying)
    case Try => s.(sup := Opening, n := s.n.(attempts := s.n.attempts + 1))
    case OpenFails => s.(sup := BackingOff, n := s.n.(failures := s.n.failures + 1))
    case OpenSucceeds => s.(sup := Holding(|s.devices|), devices := s.devices + [Device(InHand, 0)])
    case Install =>
      if s.closed then SetFate(s, s.sup.d, Rejected(false)).(sup := Rejecting(s.sup.d))
      else SetFate(s, s.sup.d, Live).(cur := Some(s.sup.d), sup := Installed)
    case CountSuccess => s.(sup := Looking, n := s.n.(successes := s.n.successes + 1))
    case CloseRejected => CloseDevice(s, s.sup.d, Rejected(true)).(sup := Exited)
    case WakeUp => s.(wake := false, sup := Looking)
    case BackoffOver => s.(sup := Looking)
    case LeaveOnCancel => s.(sup := Exited)
  }

  function Apply(s: State, step: Step): State
    requires Enabled(s, step)
  {
    if OfTraffic(step) then DoTraffic(s, step)
    else if OfDrop(step) then DoDrop(s, step)
    else if OfClose(step) then DoClose(s, step)
    else DoSupervise(s, step)
  }

  // ---------- ownership ----------

  // The device is closed for good.
  predicate Finished(fate: Fate) {
    match fate
    case Dropped(_, _, stage) => stage.Gone?
    case Taken(_, gone) => gone
    case Rejected(gone) => gone
    case _ => false
  }

  // The goroutine that answers for a device is where the device's fate says.
  predicate Held(s: State, d: Dev)
    requires d < |s.devices|
  {
    match s.devices[d].fate
    case InHand => s.sup == Holding(d)
    case Live => s.cur == Some(d)
    case Dropped(cause, c, stage) => stage.Gone? || CallOf(s, c) == Dropping(d, cause, stage)
    case Taken(c, gone) => gone || CallOf(s, c) == Closing(Some(d)) || CallOf(s, c) == ClosingDevice(Some(d))
    case Rejected(gone) => gone || s.sup == Rejecting(d)
  }

  // And what a goroutine has in its hands is a device with that fate.
  predicate Holds(s: State, c: Cid) {
    match CallOf(s, c)
    case SendPicked(d) => d.Some? ==> d.value < |s.devices| && !s.devices[d.value].fate.InHand?
    case SendCounted(d, _) => d.Some? ==> d.value < |s.devices| && !s.devices[d.value].fate.InHand?
    case ReceivePicked(d) => d.Some? ==> d.value < |s.devices| && !s.devices[d.value].fate.InHand?
    case Failing(d, _) => d < |s.devices| && !s.devices[d].fate.InHand?
    case Dropping(d, cause, stage) => d < |s.devices| && s.devices[d].fate == Dropped(cause, c, stage)
    case Closing(d) => d.Some? ==> d.value < |s.devices| && s.devices[d.value].fate == Taken(c, false)
    case ClosingDevice(d) => d.Some? ==> d.value < |s.devices| && s.devices[d.value].fate == Taken(c, false)
    case _ => true
  }

  ghost predicate Owned(s: State) {
    && InPlace(s)
    && (forall d | 0 <= d < |s.devices| :: Held(s, d))
    && (forall d | 0 <= d < |s.devices| :: s.devices[d].closes == if Finished(s.devices[d].fate) then 1 else 0)
    && (forall c | c in s.calls :: Holds(s, c))
  }

  // A supervisor that believes the device healthy will learn that it is gone.
  predicate WillNudge(call: Call) { call.Dropping? || call.Closing? }

  predicate Awake(s: State) {
    s.sup.Healthy? && s.cur.None? ==> s.wake || WillNudge(CallOf(s, s.vacated))
  }

  ghost predicate Sound(s: State, d: Dev) {
    d < |s.devices| ==> Held(s, d) && s.devices[d].closes == if Finished(s.devices[d].fate) then 1 else 0
  }

  // A step moves at most one call.
  predicate Moves(step: Step, c: Cid) {
    (OfTraffic(step) || OfDrop(step) || OfClose(step)) && step.c == c
  }

  lemma TrafficIs(s: State, step: Step)
    requires Enabled(s, step) && OfTraffic(step)
    ensures TrafficEnabled(s, step) && Apply(s, step) == DoTraffic(s, step)
  {
    hide DoTraffic, DoDrop, DoClose, DoSupervise, TrafficEnabled, DropEnabled, CloseEnabled, SupervisorEnabled;
  }

  lemma DropIs(s: State, step: Step)
    requires Enabled(s, step) && OfDrop(step)
    ensures DropEnabled(s, step) && Apply(s, step) == DoDrop(s, step)
  {
    hide DoTraffic, DoDrop, DoClose, DoSupervise, TrafficEnabled, DropEnabled, CloseEnabled, SupervisorEnabled;
  }

  lemma CloseIs(s: State, step: Step)
    requires Enabled(s, step) && OfClose(step)
    ensures CloseEnabled(s, step) && Apply(s, step) == DoClose(s, step)
  {
    hide DoTraffic, DoDrop, DoClose, DoSupervise, TrafficEnabled, DropEnabled, CloseEnabled, SupervisorEnabled;
  }

  lemma SupervisorIs(s: State, step: Step)
    requires Enabled(s, step) && OfSupervisor(step)
    ensures SupervisorEnabled(s, step) && Apply(s, step) == DoSupervise(s, step)
  {
    hide DoTraffic, DoDrop, DoClose, DoSupervise, TrafficEnabled, DropEnabled, CloseEnabled, SupervisorEnabled;
  }

  // What each group of steps leaves alone.
  lemma SendFrame(s: State, step: Step)
    requires Enabled(s, step) && OfSend(step)
    ensures var s' := Apply(s, step);
      && s' == s.(calls := s'.calls, tx := s'.tx, sendings := s'.sendings)
      && forall c | c != step.c :: CallOf(s', c) == CallOf(s, c)
  {
    TrafficIs(s, step);
    hide Apply, Enabled;
  }

  lemma TrafficFrame(s: State, step: Step)
    requires Enabled(s, step) && OfTraffic(step)
    ensures var s' := Apply(s, step);
      && s' == s.(calls := s'.calls, tx := s'.tx, sendings := s'.sendings)
      && forall c | c != step.c :: CallOf(s', c) == CallOf(s, c)
  {
    if OfSend(step) {
      hide Apply, Enabled;
      SendFrame(s, step);
    } else {
      TrafficIs(s, step);
      hide Apply, Enabled;
    }
  }

  lemma DropFrame(s: State, step: Step)
    requires Enabled(s, step) && OfDrop(step)
    ensures var s' := Apply(s, step);
      && s' == s.(calls := s'.calls, cur := s'.cur, wake := s'.wake, n := s'.n, devices := s'.devices,
           vacated := s'.vacated)
      && forall c | c != step.c :: CallOf(s', c) == CallOf(s, c)
  {
    DropIs(s, step);
    hide Apply, Enabled;
  }

  lemma CloseFrame(s: State, step: Step)
    requires Enabled(s, step) && OfClose(step)
    ensures var s' := Apply(s, step);
      && s' == s.(calls := s'.calls, cur := s'.cur, closed := s'.closed, wake := s'.wake, devices := s'.devices,
                  vacated := s'.vacated)
      && forall c | c != step.c :: CallOf(s', c) == CallOf(s, c)
  {
    CloseIs(s, step);
    hide Apply, Enabled;
  }

  lemma SupervisorFrame(s: State, step: Step)
    requires Enabled(s, step) && OfSupervisor(step)
    ensures var s' := Apply(s, step);
      s' == s.(cur := s'.cur, wake := s'.wake, canceled := s'.canceled, sup := s'.sup, n := s'.n, devices := s'.devices)
  {
    SupervisorIs(s, step);
    hide Apply, Enabled;
  }

  lemma OtherCallsStay(s: State, step: Step, c: Cid)
    requires Enabled(s, step) && !Moves(step, c)
    ensures CallOf(Apply(s, step), c) == CallOf(s, c)
  {
    hide Apply, Enabled;
    if OfTraffic(step) {
      TrafficFrame(s, step);
    } else if OfDrop(step) {
      DropFrame(s, step);
    } else if OfClose(step) {
      CloseFrame(s, step);
    } else {
      SupervisorFrame(s, step);
    }
  }

  lemma TrafficOwesNoNudge(s: State, step: Step)
    requires Enabled(s, step) && OfTraffic(step)
    ensures !WillNudge(CallOf(s, step.c)) && !CallOf(s, step.c).ClosingDevice?
  {
    TrafficIs(s, step);
    hide Apply, Enabled;
  }

  lemma SoundKeptByDetach(s: State, c: Cid, d: Dev)
    requires Sound(s, d) && Enabled(s, LockDrop(c))
    requires s.cur.Some? ==>
      s.cur.value < |s.devices| && s.devices[s.cur.value].fate.Live? && s.devices[s.cur.value].closes == 0
    ensures Sound(Apply(s, LockDrop(c)), d)
  {
    DropIs(s, LockDrop(c));
    hide Apply, Enabled;
  }

  lemma SoundKeptByDrop(s: State, step: Step, d: Dev)
    requires Owned(s) && Sound(s, d) && Enabled(s, step) && OfDrop(step)
    ensures Sound(Apply(s, step), d)
  {
    assert Holds(s, step.c);
    assert s.cur.Some? ==> s.devices[s.cur.value].fate.Live? && s.devices[s.cur.value].closes == 0;
    hide Owned, Enabled;
    if step.LockDrop? {
      SoundKeptByDetach(s, step.c, d);
    } else {
      SoundKeptByDropOnly(s, step, d);
    }
  }

  lemma SoundKeptByDropOnly(s: State, step: Step, d: Dev)
    requires Sound(s, d) && Enabled(s, step) && OfDrop(step) && !step.LockDrop? && Holds(s, step.c)
    ensures Sound(Apply(s, step), d)
  {
    DropIs(s, step);
    hide Apply, Enabled;
  }

  lemma SoundKeptByLockClose(s: State, c: Cid, d: Dev)
    requires Owned(s) && Sound(s, d) && Enabled(s, LockClose(c))
    ensures Sound(Apply(s, LockClose(c)), d)
  {
    assert s.cur.Some? ==> s.devices[s.cur.value].fate.Live? && s.devices[s.cur.value].closes == 0;
    hide Owned;
  }

  lemma SoundKeptByCloseTaken(s: State, c: Cid, d: Dev)
    requires Sound(s, d) && Enabled(s, CloseTaken(c)) && Holds(s, c)
    requires CallOf(s, c).dev.Some? ==> s.devices[CallOf(s, c).dev.value].closes == 0
    ensures Sound(Apply(s, CloseTaken(c)), d)
  {
    CloseIs(s, CloseTaken(c));
    hide Apply, Enabled;
  }

  lemma SoundKeptByNudge(s: State, c: Cid, d: Dev)
    requires Sound(s, d) && Enabled(s, NudgeAfterClose(c)) && Holds(s, c)
    ensures Sound(Apply(s, NudgeAfterClose(c)), d)
  {
    CloseIs(s, NudgeAfterClose(c));
    hide Apply, Enabled;
  }

  lemma SoundKeptByClose(s: State, step: Step, d: Dev)
    requires Owned(s) && Sound(s, d) && Enabled(s, step) && (step.NudgeAfterClose? || step.CloseTaken?)
    ensures Sound(Apply(s, step), d)
  {
    assert Holds(s, step.c);
    if step.CloseTaken? {
      assert CallOf(s, step.c).dev.Some? ==> s.devices[CallOf(s, step.c).dev.value].closes == 0;
      SoundKeptByCloseTaken(s, step.c, d);
    } else {
      SoundKeptByNudge(s, step.c, d);
    }
    hide Owned, Sound, Apply, Enabled;
  }

  lemma SoundKeptByTraffic(s: State, step: Step, d: Dev)
    requires Sound(s, d) && Enabled(s, step) && OfTraffic(step)
    ensures Sound(Apply(s, step), d)
  {
    TrafficFrame(s, step);
    TrafficOwesNoNudge(s, step);
    if d < |s.devices| && (s.devices[d].fate.Dropped? || s.devices[d].fate.Taken?) && s.devices[d].fate.who != step.c {
      OtherCallsStay(s, step, s.devices[d].fate.who);
    }
    hide Apply, Enabled;
  }

  lemma SoundKeptByInstall(s: State, d: Dev)
    requires Owned(s) && Sound(s, d) && Enabled(s, Install)
    ensures Sound(Apply(s, Install), d)
  {
    assert s.cur.None? && s.devices[s.sup.d].fate.InHand? && s.devices[s.sup.d].closes == 0;
    hide Owned;
  }

  lemma SoundKeptByCloseRejected(s: State, d: Dev)
    requires Owned(s) && Sound(s, d) && Enabled(s, CloseRejected)
    ensures Sound(Apply(s, CloseRejected), d)
  {
    assert s.devices[s.sup.d].fate == Rejected(false) && s.devices[s.sup.d].closes == 0;
    hide Owned;
  }

  lemma SoundKeptBySupervisor(s: State, step: Step, d: Dev)
    requires Sound(s, d) && Enabled(s, step)
    requires !OfDrop(step) && !OfClose(step) && !OfTraffic(step) && !step.Install? && !step.CloseRejected?
    ensures Sound(Apply(s, step), d)
  {
    SupervisorIs(s, step);
    hide Apply, Enabled;
  }

  lemma SoundKept(s: State, step: Step, d: Dev)
    requires Owned(s) && Sound(s, d) && Enabled(s, step)
    ensures Sound(Apply(s, step), d)
  {
    hide Owned, Sound, Apply, Enabled;
    match step
    case LockClose(c) => SoundKeptByLockClose(s, c, d);
    case Install => SoundKeptByInstall(s, d);
    case CloseRejected => SoundKeptByCloseRejected(s, d);
    case _ =>
      if OfDrop(step) {
        SoundKeptByDrop(s, step, d);
      } else if OfClose(step) {
        SoundKeptByClose(s, step, d);
      } else if OfTraffic(step) {
        SoundKeptByTraffic(s, step, d);
      } else {
        SoundKeptBySupervisor(s, step, d);
      }
  }

  // ---------- what the goroutines hold ----------

  // Where the devices in the hands of the endpoint and the supervisor are.
  predicate InPlace(s: State) {
    && (s.cur.Some? ==> s.cur.value < |s.devices| && s.devices[s.cur.value].fate.Live?)
    && (s.sup.Holding? ==> s.sup.d < |s.devices| && s.devices[s.sup.d].fate.InHand?)
    && (s.sup.Rejecting? ==> s.sup.d < |s.devices| && s.devices[s.sup.d].fate == Rejected(false))
    && (s.closed ==> s.cur.None?)
    && (s.sup.Trying? || s.sup.Opening? || s.sup.Holding? ==> s.cur.None?)
  }

  lemma DropperKeepsHolding(s: State, step: Step)
    requires Enabled(s, step) && OfDrop(step) && Holds(s, step.c)
    requires s.cur.Some? ==> s.cur.value < |s.devices| && s.devices[s.cur.value].fate.Live?
    ensures Holds(Apply(s, step), step.c)
  {
    DropIs(s, step);
    hide Apply, Enabled;
  }

  // A dropped device stays with its dropper.
  lemma DropTouches(s: State, step: Step)
    requires Enabled(s, step) && OfDrop(step) && Holds(s, step.c)
    requires s.cur.Some? ==> s.cur.value < |s.devices| && s.devices[s.cur.value].fate.Live?
    ensures |Apply(s, step).devices| == |s.devices|
    ensures forall d | 0 <= d < |s.devices| && Apply(s, step).devices[d].fate != s.devices[d].fate ::
      && !Apply(s, step).devices[d].fate.InHand?
      && (s.devices[d].fate.Live? || (s.devices[d].fate.Dropped? && s.devices[d].fate.who == step.c))
  {
    DropIs(s, step);
    hide Apply, Enabled;
  }

  lemma OthersHoldWhileDropping(s: State, step: Step, c: Cid)
    requires InPlace(s) && Holds(s, c) && Enabled(s, step) && OfDrop(step) && Holds(s, step.c) && c != step.c
    ensures Holds(Apply(s, step), c)
  {
    hide Apply, Enabled;
    DropTouches(s, step);
    OtherCallsStay(s, step, c);
    hide InPlace;
  }

  lemma HoldsKeptByDrop(s: State, step: Step, c: Cid)
    requires InPlace(s) && Holds(s, c) && Enabled(s, step) && OfDrop(step) && Holds(s, step.c)
    ensures Holds(Apply(s, step), c)
  {
    hide Apply, Enabled, Holds;
    if c == step.c {
      DropperKeepsHolding(s, step);
    } else {
      OthersHoldWhileDropping(s, step, c);
    }
  }

  lemma HoldsKeptByLockClose(s: State, closer: Cid, c: Cid)
    requires InPlace(s) && Holds(s, c) && Enabled(s, LockClose(closer))
    ensures Holds(Apply(s, LockClose(closer)), c)
  {
    CloseIs(s, LockClose(closer));
    hide Apply, Enabled;
  }

  // Close closes nothing but the device it has taken.
  lemma CloseTakenTouches(s: State, closer: Cid)
    requires Enabled(s, CloseTaken(closer)) && Holds(s, closer)
    ensures var s' := Apply(s, CloseTaken(closer));
      && |s'.devices| == |s.devices| && CallOf(s', closer).NoCall?
      && forall d | 0 <= d < |s.devices| && s'.devices[d].fate != s.devices[d].fate ::
           s.devices[d].fate == Taken(closer, false) && s'.devices[d].fate == Taken(closer, true)
  {
    CloseIs(s, CloseTaken(closer));
    hide Apply, Enabled;
  }

  lemma HoldsKeptByCloseTaken(s: State, closer: Cid, c: Cid)
    requires Holds(s, c) && Holds(s, closer) && Enabled(s, CloseTaken(closer))
    ensures Holds(Apply(s, CloseTaken(closer)), c)
  {
    CloseTakenTouches(s, closer);
    if c != closer {
      OtherCallsStay(s, CloseTaken(closer), c);
    }
    hide Apply, Enabled;
  }

  lemma HoldsKeptByNudge(s: State, closer: Cid, c: Cid)
    requires Holds(s, c) && Holds(s, closer) && Enabled(s, NudgeAfterClose(closer))
    ensures Holds(Apply(s, NudgeAfterClose(closer)), c)
  {
    CloseIs(s, NudgeAfterClose(closer));
    hide Apply, Enabled;
  }

  lemma HoldsKeptByClose(s: State, step: Step, c: Cid)
    requires InPlace(s) && Holds(s, c) && Enabled(s, step) && OfClose(step) && Holds(s, step.c)
    ensures Holds(Apply(s, step), c)
  {
    hide InPlace, Holds, Apply, Enabled;
    match step
    case LockClose(closer) => HoldsKeptByLockClose(s, closer, c);
    case NudgeAfterClose(closer) => HoldsKeptByNudge(s, closer, c);
    case CloseTaken(closer) => HoldsKeptByCloseTaken(s, closer, c);
  }

  lemma HoldsKeptByOwnSend(s: State, step: Step)
    requires Enabled(s, step) && OfSend(step) && Holds(s, step.c)
    ensures Holds(Apply(s, step), step.c)
  {
    TrafficIs(s, step);
    hide Apply, Enabled, SetSending;
  }

  lemma HoldsKeptByOwnTraffic(s: State, step: Step)
    requires Enabled(s, step) && OfTraffic(step) && InPlace(s) && Holds(s, step.c)
    ensures Holds(Apply(s, step), step.c)
  {
    assert s.cur.Some? ==> s.cur.value < |s.devices| && s.devices[s.cur.value].fate.Live?;
    if OfSend(step) {
      hide Apply, Enabled, Holds;
      HoldsKeptByOwnSend(s, step);
    } else {
      TrafficIs(s, step);
      hide Apply, Enabled, InPlace;
    }
  }

  lemma HoldsKeptByTraffic(s: State, step: Step, c: Cid)
    requires InPlace(s) && Holds(s, c) && Enabled(s, step) && OfTraffic(step)
    ensures Holds(Apply(s, step), c)
  {
    TrafficFrame(s, step);
    if c == step.c {
      HoldsKeptByOwnTraffic(s, step);
    } else {
      OtherCallsStay(s, step, c);
      hide Apply, Enabled, InPlace;
    }
  }

  // The supervisor decides the fate of the device it has opened, and of no other.
  lemma SupervisorTouches(s: State, step: Step)
    requires InPlace(s) && Enabled(s, step) && OfSupervisor(step)
    ensures var s' := Apply(s, step);
      && |s.devices| <= |s'.devices|
      && forall d | 0 <= d < |s.devices| && s'.devices[d].fate != s.devices[d].fate ::
           (s.devices[d].fate.InHand? || s.devices[d].fate.Rejected?) && !s'.devices[d].fate.InHand?
  {
    SupervisorIs(s, step);
    hide Apply, Enabled;
  }

  lemma HoldsKeptBySupervisor(s: State, step: Step, c: Cid)
    requires InPlace(s) && Holds(s, c) && Enabled(s, step) && OfSupervisor(step)
    ensures Holds(Apply(s, step), c)
  {
    hide Apply, Enabled, InPlace;
    SupervisorTouches(s, step);
    SupervisorFrame(s, step);
  }

  lemma HoldsKept(s: State, step: Step, c: Cid)
    requires Owned(s) && Holds(s, c) && Enabled(s, step)
    ensures Holds(Apply(s, step), c)
  {
    assert InPlace(s);
    assert OfDrop(step) || OfClose(step) ==> Holds(s, step.c);
    hide Owned, Apply, Enabled, Holds, InPlace;
    if OfDrop(step) {
      HoldsKeptByDrop(s, step, c);
    } else if OfClose(step) {
      HoldsKeptByClose(s, step, c);
    } else if OfTraffic(step) {
      HoldsKeptByTraffic(s, step, c);
    } else {
      HoldsKeptBySupervisor(s, step, c);
    }
  }

  lemma InPlaceKeptByDrop(s: State, step: Step)
    requires Enabled(s, step) && OfDrop(step) && InPlace(s) && Holds(s, step.c)
    ensures InPlace(Apply(s, step))
  {
    DropIs(s, step);
    hide Apply, Enabled;
  }

  lemma InPlaceKeptByClose(s: State, step: Step)
    requires Enabled(s, step) && OfClose(step) && InPlace(s) && Holds(s, step.c)
    ensures InPlace(Apply(s, step))
  {
    CloseIs(s, step);
    hide Apply, Enabled;
  }

  lemma InPlaceKeptBySupervisor(s: State, step: Step)
    requires InPlace(s) && Enabled(s, step) && !OfTraffic(step) && !OfDrop(step) && !OfClose(step)
    ensures InPlace(Apply(s, step))
  {
    SupervisorIs(s, step);
    hide Apply, Enabled;
  }

  lemma InPlaceKept(s: State, step: Step)
    requires InPlace(s) && Enabled(s, step)
    requires OfDrop(step) || OfClose(step) ==> Holds(s, step.c)
    ensures InPlace(Apply(s, step))
  {
    hide Apply, Enabled;
    if OfTraffic(step) {
      TrafficFrame(s, step);
    } else if OfDrop(step) {
      hide InPlace;
      InPlaceKeptByDrop(s, step);
    } else if OfClose(step) {
      InPlaceKeptByClose(s, step);
    } else {
      InPlaceKeptBySupervisor(s, step);
    }
  }

  lemma OwnedKept(s: State, step: Step)
    requires Owned(s) && Enabled(s, step)
    ensures Owned(Apply(s, step))
  {
    assert InPlace(s);
    assert OfDrop(step) || OfClose(step) ==> Holds(s, step.c);
    InPlaceKept(s, step);
    var s' := Apply(s, step);
    hide Apply, Enabled, Held, Finished;
    forall d: Dev | d < |s'.devices|
      ensures Held(s', d) && s'.devices[d].closes == if Finished(s'.devices[d].fate) then 1 else 0
    {
      assert Sound(s, d);
      SoundKept(s, step, d);
    }
    forall c | c in s'.calls ensures Holds(s', c) {
      HoldsKept(s, step, c);
    }
  }

  lemma AwakeKeptByTraffic(s: State, step: Step)
    requires Awake(s) && Enabled(s, step) && OfTraffic(step)
    ensures Awake(Apply(s, step))
  {
    TrafficFrame(s, step);
    TrafficOwesNoNudge(s, step);
    if !Moves(step, s.vacated) {
      OtherCallsStay(s, step, s.vacated);
    }
    hide Apply, Enabled, WillNudge;
  }

  lemma AwakeKeptByDrop(s: State, step: Step)
    requires Awake(s) && Enabled(s, step) && OfDrop(step)
    ensures Awake(Apply(s, step))
  {
    DropIs(s, step);
    hide Apply, Enabled;
  }

  lemma AwakeKeptByClose(s: State, step: Step)
    requires Awake(s) && Enabled(s, step) && OfClose(step)
    ensures Awake(Apply(s, step))
  {
    CloseIs(s, step);
    hide Apply, Enabled;
  }

  lemma AwakeKeptBySupervisor(s: State, step: Step)
    requires InPlace(s) && Awake(s) && Enabled(s, step) && OfSupervisor(step)
    ensures Awake(Apply(s, step))
  {
    SupervisorIs(s, step);
    hide Apply, Enabled;
  }

  lemma AwakeKept(s: State, step: Step)
    requires InPlace(s) && Awake(s) && Enabled(s, step)
    ensures Awake(Apply(s, step))
  {
    hide Apply, Enabled, Awake, InPlace;
    if OfTraffic(step) {
      AwakeKeptByTraffic(s, step);
    } else if OfDrop(step) {
      AwakeKeptByDrop(s, step);
    } else if OfClose(step) {
      AwakeKeptByClose(s, step);
    } else {
      AwakeKeptBySupervisor(s, step);
    }
  }

  // ---------- the counters ----------

  datatype Kind = IsInstalled | IsLive | IsDropped | IsTotaled | IsAttributed(cause: Cause) | IsTaken | IsRejected

  predicate Is(fate: Fate, k: Kind) {
    match k
    case IsInstalled => fate.Live? || fate.Dropped? || fate.Taken?
    case IsLive => fate.Live?
    case IsDropped => fate.Dropped?
    case IsTotaled => fate.Dropped? && !fate.stage.Detached?
    case IsAttributed(cause) => fate.Dropped? && fate.cause == cause && (fate.stage.Attributed? || fate.stage.Gone?)
    case IsTaken => fate.Taken?
    case IsRejected => fate.Rejected?
  }

  function Tally(devices: seq<Device>, k: Kind): nat {
    if devices == [] then 0
    else Tally(devices[..|devices| - 1], k) + if Is(devices[|devices| - 1].fate, k) then 1 else 0
  }

  lemma {:induction false} TallyUpdate(devices: seq<Device>, d: Dev, device: Device, k: Kind)
    requires d < |devices|
    ensures Tally(devices[d := device], k)
         == Tally(devices, k) - (if Is(devices[d].fate, k) then 1 else 0) + (if Is(device.fate, k) then 1 else 0)
  {
    var devices' := devices[d := device];
    if d == |devices| - 1 {
      assert devices'[..d] == devices[..d];
    } else {
      assert devices'[..|devices| - 1] == devices[..|devices| - 1][d := device];
      TallyUpdate(devices[..|devices| - 1], d, device, k);
    }
  }

  lemma TallyAppend(devices: seq<Device>, device: Device, k: Kind)
    ensures Tally(devices + [device], k) == Tally(devices, k) + if Is(device.fate, k) then 1 else 0
  {
    assert (devices + [device])[..|devices|] == devices;
  }

  ghost predicate Opens(s: State) {
    && s.n.attempts == s.n.successes + s.n.failures + Tally(s.devices, IsRejected)
         + (if s.sup.Opening? || s.sup.Holding? || s.sup.Installed? then 1 else 0)
    && s.n.successes + (if s.sup.Installed? then 1 else 0) == Tally(s.devices, IsInstalled)
    && (if s.cur.Some? then 1 else 0) == Tally(s.devices, IsLive)
    && s.n.disconnects == Tally(s.devices, IsTotaled)
    && s.n.bySend == Tally(s.devices, IsAttributed(BySend))
    && s.n.byReceive == Tally(s.devices, IsAttributed(ByReceive))
  }

  // The one device whose fate a step changes, and what it becomes.
  function Touched(s: State, step: Step): Option<Dev>
    requires Enabled(s, step)
  {
    match step
    case LockDrop(c) => if s.cur == Some(CallOf(s, c).d) then s.cur else None
    case CountDisconnect(c) => Some(CallOf(s, c).d)
    case CountCause(c) => Some(CallOf(s, c).d)
    case CloseDropped(c) => Some(CallOf(s, c).d)
    case LockClose(c) => s.cur
    case CloseTaken(c) => CallOf(s, c).dev
    case Install => Some(s.sup.d)
    case CloseRejected => Some(s.sup.d)
    case _ => None
  }

  // The devices after a step: one more, one with another fate, or the same.
  ghost predicate DevicesMove(s: State, step: Step)
    requires Enabled(s, step)
  {
    var d, s' := Touched(s, step), Apply(s, step);
    if d.Some? then d.value < |s.devices| == |s'.devices| && s'.devices == s.devices[d.value := s'.devices[d.value]]
    else if step.OpenSucceeds? then s'.devices == s.devices + [Device(InHand, 0)]
    else s'.devices == s.devices
  }

  lemma DevicesAfterDrop(s: State, step: Step)
    requires Enabled(s, step) && OfDrop(step)
    ensures DevicesMove(s, step)
  {
    DropIs(s, step);
    hide Apply, Enabled;
  }

  lemma DevicesAfterClose(s: State, step: Step)
    requires Enabled(s, step) && OfClose(step)
    ensures DevicesMove(s, step)
  {
    CloseIs(s, step);
    hide Apply, Enabled;
  }

  lemma DevicesAfterSupervisor(s: State, step: Step)
    requires Enabled(s, step) && OfSupervisor(step)
    ensures DevicesMove(s, step)
  {
    SupervisorIs(s, step);
    hide Apply, Enabled;
  }

  lemma DevicesAfter(s: State, step: Step)
    requires Enabled(s, step)
    ensures DevicesMove(s, step)
  {
    hide Apply, Enabled;
    if OfTraffic(step) {
      TrafficFrame(s, step);
    } else if OfDrop(step) {
      DevicesAfterDrop(s, step);
    } else if OfClose(step) {
      DevicesAfterClose(s, step);
    } else {
      DevicesAfterSupervisor(s, step);
    }
  }

  lemma TallyAfter(s: State, step: Step, k: Kind)
    requires Enabled(s, step)
    ensures var d, s' := Touched(s, step), Apply(s, step);
      && (d.Some? ==> d.value < |s.devices| == |s'.devices|)
      && Tally(s'.devices, k) == Tally(s.devices, k)
           - (if d.Some? && Is(s.devices[d.value].fate, k) then 1 else 0)
           + (if d.Some? && Is(s'.devices[d.value].fate, k) then 1 else 0)
  {
    DevicesAfter(s, step);
    hide Apply, Enabled;
    var d := Touched(s, step);
    hide Touched;
    if d.Some? {
      TallyUpdate(s.devices, d.value, Apply(s, step).devices[d.value], k);
    } else {
      TallyAppend(s.devices, Device(InHand, 0), k);
    }
  }

  ghost predicate Tallied(s: State, step: Step, k: Kind)
    requires Enabled(s, step)
  {
    var d, s' := Touched(s, step), Apply(s, step);
    if d.Some? then
      d.value < |s.devices| == |s'.devices|
      && Tally(s'.devices, k) == Tally(s.devices, k) - (if Is(s.devices[d.value].fate, k) then 1 else 0)
                                 + (if Is(s'.devices[d.value].fate, k) then 1 else 0)
    else Tally(s'.devices, k) == Tally(s.devices, k)
  }

  lemma TalliesAfter(s: State, step: Step)
    requires Enabled(s, step)
    ensures Tallied(s, step, IsRejected) && Tallied(s, step, IsInstalled) && Tallied(s, step, IsLive)
    ensures Tallied(s, step, IsTotaled) && Tallied(s, step, IsAttributed(BySend))
      && Tallied(s, step, IsAttributed(ByReceive))
  {
    forall k ensures Tallied(s, step, k) {
      TallyAfter(s, step, k);
    }
    hide Tallied;
  }

  lemma OpensKeptByNudgeAfterDrop(s: State, c: Cid)
    requires Opens(s) && Enabled(s, NudgeAfterDrop(c))
    ensures Opens(Apply(s, NudgeAfterDrop(c)))
  {
    DropIs(s, NudgeAfterDrop(c));
    hide Apply, Enabled, Tally;
  }

  lemma OpensKeptByLockDrop(s: State, c: Cid)
    requires Opens(s) && InPlace(s) && Enabled(s, LockDrop(c))
    ensures Opens(Apply(s, LockDrop(c)))
  {
    DropIs(s, LockDrop(c));
    hide Apply, Enabled;
    TalliesAfter(s, LockDrop(c));
    hide Tally;
  }

  lemma OpensKeptByDrop(s: State, step: Step)
    requires Opens(s) && Enabled(s, step) && OfDrop(step) && !step.LockDrop? && !step.NudgeAfterDrop?
      && Holds(s, step.c)
    ensures Opens(Apply(s, step))
  {
    DropIs(s, step);
    hide Apply, Enabled;
    TalliesAfter(s, step);
    hide Tally;
  }

  lemma OpensKeptByLockClose(s: State, c: Cid)
    requires Opens(s) && InPlace(s) && Enabled(s, LockClose(c))
    ensures Opens(Apply(s, LockClose(c)))
  {
    CloseIs(s, LockClose(c));
    hide Apply, Enabled;
    TalliesAfter(s, LockClose(c));
    hide Tally;
  }

  lemma OpensKeptByCloseTaken(s: State, c: Cid)
    requires Opens(s) && Enabled(s, CloseTaken(c)) && Holds(s, c)
    ensures Opens(Apply(s, CloseTaken(c)))
  {
    TalliesAfter(s, CloseTaken(c));
    CloseTakenTouches(s, c);
    CloseTakenCounts(s, c);
    hide Apply, Enabled, Tally;
  }

  lemma CloseTakenCounts(s: State, c: Cid)
    requires Enabled(s, CloseTaken(c))
    ensures var s' := Apply(s, CloseTaken(c)); s'.n == s.n && s'.sup == s.sup && s'.cur == s.cur
  {
    CloseIs(s, CloseTaken(c));
    hide Apply, Enabled;
  }

  lemma OpensKeptByNudge(s: State, c: Cid)
    requires Opens(s) && Enabled(s, NudgeAfterClose(c))
    ensures Opens(Apply(s, NudgeAfterClose(c)))
  {
    CloseIs(s, NudgeAfterClose(c));
    hide Apply, Enabled;
    hide Tally;
  }

  lemma OpensKeptByTraffic(s: State, step: Step)
    requires Opens(s) && Enabled(s, step) && OfTraffic(step)
    ensures Opens(Apply(s, step))
  {
    TrafficFrame(s, step);
    hide Apply, Enabled, Tally;
  }

  lemma OpensKeptByInstall(s: State)
    requires Opens(s) && InPlace(s) && Enabled(s, Install)
    ensures Opens(Apply(s, Install))
  {
    SupervisorIs(s, Install);
    hide Apply, Enabled;
    TalliesAfter(s, Install);
    hide Tally;
  }

  lemma OpensKeptBySupervisor(s: State, step: Step)
    requires Opens(s) && InPlace(s) && Enabled(s, step) && OfSupervisor(step) && !step.Install?
    ensures Opens(Apply(s, step))
  {
    SupervisorIs(s, step);
    hide Apply, Enabled;
    TalliesAfter(s, step);
    hide Tally;
  }

  lemma OpensKept(s: State, step: Step)
    requires Opens(s) && Owned(s) && Enabled(s, step)
    ensures Opens(Apply(s, step))
  {
    assert OfDrop(step) || OfClose(step) ==> Holds(s, step.c);
    hide Opens, Owned, Apply, Enabled;
    if step.LockDrop? {
      OpensKeptByLockDrop(s, step.c);
    } else if step.NudgeAfterDrop? {
      OpensKeptByNudgeAfterDrop(s, step.c);
    } else if OfDrop(step) {
      OpensKeptByDrop(s, step);
    } else if step.LockClose? {
      OpensKeptByLockClose(s, step.c);
    } else if step.NudgeAfterClose? {
      OpensKeptByNudge(s, step.c);
    } else if OfClose(step) {
      OpensKeptByCloseTaken(s, step.c);
    } else if step.Install? {
      OpensKeptByInstall(s);
    } else if OfTraffic(step) {
      OpensKeptByTraffic(s, step);
    } else {
      OpensKeptBySupervisor(s, step);
    }
  }

  // ---------- the traffic ----------

  datatype Ending = InSuccess | InError | InOffline

  predicate Ends(sending: Sending, e: Ending) {
    match e
    case InSuccess => sending.Succeeded?
    case InError => sending.Failed? || sending.HalfOffline? || sending.Offline?
    case InOffline => sending.Offline?
  }

  function Sends(sendings: seq<Sending>, e: Ending): nat {
    if sendings == [] then 0
    else Sends(sendings[..|sendings| - 1], e) + if Ends(sendings[|sendings| - 1], e) then 1 else 0
  }

  lemma {:induction false} SendsUpdate(sendings: seq<Sending>, i: nat, sending: Sending, e: Ending)
    requires i < |sendings|
    ensures Sends(sendings[i := sending], e)
         == Sends(sendings, e) - (if Ends(sendings[i], e) then 1 else 0) + (if Ends(sending, e) then 1 else 0)
  {
    if i == |sendings| - 1 {
      assert sendings[i := sending][..i] == sendings[..i];
    } else {
      assert sendings[i := sending][..|sendings| - 1] == sendings[..|sendings| - 1][i := sending];
      SendsUpdate(sendings[..|sendings| - 1], i, sending, e);
    }
  }

  lemma SendsAppend(sendings: seq<Sending>, sending: Sending, e: Ending)
    ensures Sends(sendings + [sending], e) == Sends(sendings, e) + if Ends(sending, e) then 1 else 0
  {
    assert (sendings + [sending])[..|sendings|] == sendings;
  }

  predicate CallsSending(s: State, c: Cid) {
    match CallOf(s, c)
    case SendCounted(_, i) => i < |s.sendings| && s.sendings[i] == Underway(c)
    case SendOffline(i) => i < |s.sendings| && s.sendings[i] == HalfOffline(c)
    case _ => true
  }

  predicate SendingHasCall(s: State, i: nat)
    requires i < |s.sendings|
  {
    match s.sendings[i]
    case Underway(c) => CallOf(s, c).SendCounted? && CallOf(s, c).i == i
    case HalfOffline(c) => CallOf(s, c).SendOffline? && CallOf(s, c).i == i
    case _ => true
  }

  ghost predicate Traffic(s: State) {
    && (forall c | c in s.calls :: CallsSending(s, c))
    && (forall i | 0 <= i < |s.sendings| :: SendingHasCall(s, i))
    && s.tx.txAll == |s.sendings|
    && s.tx.txSuccess == Sends(s.sendings, InSuccess)
    && s.tx.txErr == Sends(s.sendings, InError)
    && s.tx.txOffline == Sends(s.sendings, InOffline)
  }

  lemma SendBooks(s: State, step: Step, e: Ending)
    requires Enabled(s, step) && OfSend(step)
    ensures var s' := Apply(s, step);
      if step.CountSend? then Sends(s'.sendings, e) == Sends(s.sendings, e)
      else
        var i := CallOf(s, step.c).i;
        && i < |s.sendings| == |s'.sendings|
        && s'.sendings == s.sendings[i := s'.sendings[i]]
        && Sends(s'.sendings, e) == Sends(s.sendings, e) - (if Ends(s.sendings[i], e) then 1 else 0)
                                    + (if Ends(s'.sendings[i], e) then 1 else 0)
  {
    TrafficIs(s, step);
    hide Apply, Enabled;
    var s' := Apply(s, step);
    if step.CountSend? {
      SendsAppend(s.sendings, Underway(step.c), e);
    } else {
      SendsUpdate(s.sendings, CallOf(s, step.c).i, s'.sendings[CallOf(s, step.c).i], e);
    }
  }

  // A counted send whose call moves on.
  lemma OneSendingMoves(s: State, step: Step)
    requires Enabled(s, step)
    ensures var s' := Apply(s, step);
      if step.CountSend? then s'.sendings == s.sendings + [Underway(step.c)]
      else if OfSend(step) then
        var i := CallOf(s, step.c).i;
        i < |s.sendings| == |s'.sendings| && s'.sendings == s.sendings[i := s'.sendings[i]]
      else s'.sendings == s.sendings
  {
    if OfSend(step) {
      SendMoves(s, step);
      hide Apply, Enabled;
    } else {
      hide Apply, Enabled;
      SendingsUntouched(s, step);
    }
  }

  lemma SendMoves(s: State, step: Step)
    requires Enabled(s, step) && OfSend(step)
    ensures var s' := Apply(s, step);
      if step.CountSend? then s'.sendings == s.sendings + [Underway(step.c)]
      else
        var i := CallOf(s, step.c).i;
        i < |s.sendings| == |s'.sendings| && s'.sendings == s.sendings[i := s'.sendings[i]]
  {
    TrafficIs(s, step);
    hide Apply, Enabled;
  }

  lemma OwnSendKept(s: State, step: Step)
    requires Enabled(s, step) && OfSend(step) && CallsSending(s, step.c)
    ensures CallsSending(Apply(s, step), step.c)
    ensures !step.CountSend? ==> CallOf(s, step.c).i < |Apply(s, step).sendings|
    ensures !step.CountSend? ==> SendingHasCall(Apply(s, step), CallOf(s, step.c).i)
    ensures step.CountSend? ==> |Apply(s, step).sendings| == |s.sendings| + 1
    ensures step.CountSend? ==> SendingHasCall(Apply(s, step), |s.sendings|)
  {
    TrafficIs(s, step);
    hide Apply, Enabled;
  }

  lemma OwnReceiveKept(s: State, step: Step)
    requires Enabled(s, step) && OfTraffic(step) && !OfSend(step)
    ensures CallsSending(Apply(s, step), step.c) && !CallOf(s, step.c).SendCounted? && !CallOf(s, step.c).SendOffline?
  {
    TrafficIs(s, step);
    hide Apply, Enabled;
  }

  lemma DroppersSendNothing(s: State, step: Step)
    requires Enabled(s, step) && OfDrop(step)
    ensures CallsSending(Apply(s, step), step.c) && !CallOf(s, step.c).SendCounted? && !CallOf(s, step.c).SendOffline?
  {
    DropIs(s, step);
    hide Apply, Enabled;
  }

  lemma ClosersSendNothing(s: State, step: Step)
    requires Enabled(s, step) && OfClose(step)
    ensures CallsSending(Apply(s, step), step.c) && !CallOf(s, step.c).SendCounted? && !CallOf(s, step.c).SendOffline?
  {
    CloseIs(s, step);
    hide Apply, Enabled;
  }

  lemma OwnSendingKept(s: State, step: Step, c: Cid)
    requires Enabled(s, step) && CallsSending(s, c) && Moves(step, c)
    ensures CallsSending(Apply(s, step), c)
    ensures OfSend(step) && !step.CountSend? ==> SendingHasCall(Apply(s, step), CallOf(s, c).i)
    ensures step.CountSend? ==> SendingHasCall(Apply(s, step), |s.sendings|)
    ensures !OfSend(step) ==> !CallOf(s, c).SendCounted? && !CallOf(s, c).SendOffline?
  {
    hide Apply, Enabled;
    if OfSend(step) {
      OwnSendKept(s, step);
    } else if OfTraffic(step) {
      OwnReceiveKept(s, step);
    } else if OfDrop(step) {
      DroppersSendNothing(s, step);
    } else {
      ClosersSendNothing(s, step);
    }
  }

  lemma CallsSendingKept(s: State, step: Step, c: Cid)
    requires Enabled(s, step) && CallsSending(s, c) && (OfSend(step) ==> CallsSending(s, step.c))
    ensures CallsSending(Apply(s, step), c)
  {
    if Moves(step, c) {
      OwnSendingKept(s, step, c);
    } else {
      OtherCallsStay(s, step, c);
      OneSendingMoves(s, step);
      assert OfSend(step) && !step.CountSend? ==>
        s.sendings[CallOf(s, step.c).i] in {Underway(step.c), HalfOffline(step.c)};
      hide Apply, Enabled;
    }
  }

  lemma SendingHasCallKept(s: State, step: Step, i: nat)
    requires Enabled(s, step) && i < |Apply(s, step).sendings| && (i < |s.sendings| ==> SendingHasCall(s, i))
    requires OfSend(step) ==> CallsSending(s, step.c)
    requires i < |s.sendings| && Moving(s.sendings[i]) ==> CallsSending(s, s.sendings[i].who)
    ensures SendingHasCall(Apply(s, step), i)
  {
    OneSendingMoves(s, step);
    if OfSend(step) {
      OwnSendingKept(s, step, step.c);
    }
    if i < |s.sendings| && Moving(s.sendings[i]) {
      var c := s.sendings[i].who;
      if Moves(step, c) {
        OwnSendingKept(s, step, c);
      } else {
        OtherCallsStay(s, step, c);
      }
    }
    hide Apply, Enabled;
  }

  predicate Moving(sending: Sending) { sending.Underway? || sending.HalfOffline? }

  lemma TrafficKept(s: State, step: Step)
    requires Traffic(s) && Enabled(s, step)
    ensures Traffic(Apply(s, step))
  {
    if OfSend(step) {
      assert CallsSending(s, step.c);
      SendBooks(s, step, InSuccess);
      SendBooks(s, step, InError);
      SendBooks(s, step, InOffline);
      TrafficCountersKept(s, step);
    } else {
      SendingsUntouched(s, step);
    }
    var s' := Apply(s, step);
    forall c ensures CallsSending(s, c) {
      CallsSendingHere(s, c);
    }
    hide Apply, Enabled, CallsSending, SendingHasCall, Sends;
    forall c | c in s'.calls ensures CallsSending(s', c) {
      CallsSendingKept(s, step, c);
    }
    forall i: nat | i < |s'.sendings| ensures SendingHasCall(s', i) {
      SendingHasCallKept(s, step, i);
    }
  }

  lemma CallsSendingHere(s: State, c: Cid)
    requires c in s.calls ==> CallsSending(s, c)
    ensures CallsSending(s, c)
  {
  }

  lemma ReceivesLeaveSendings(s: State, step: Step)
    requires Enabled(s, step) && OfTraffic(step) && !OfSend(step)
    ensures var s' := Apply(s, step);
      s'.sendings == s.sendings && s'.tx == s.tx.(rxAll := s'.tx.rxAll, rxErrors := s'.tx.rxErrors)
  {
    TrafficIs(s, step);
    hide Apply, Enabled;
  }

  lemma SendingsUntouched(s: State, step: Step)
    requires Enabled(s, step) && !OfSend(step)
    ensures var s' := Apply(s, step);
      s'.sendings == s.sendings && s'.tx == s.tx.(rxAll := s'.tx.rxAll, rxErrors := s'.tx.rxErrors)
  {
    hide Apply, Enabled;
    if OfTraffic(step) {
      ReceivesLeaveSendings(s, step);
    } else if OfDrop(step) {
      DropFrame(s, step);
    } else if OfClose(step) {
      CloseFrame(s, step);
    } else {
      SupervisorFrame(s, step);
    }
  }

  lemma TrafficCountersKept(s: State, step: Step)
    requires Enabled(s, step) && OfSend(step) && CallsSending(s, step.c)
    requires s.tx.txAll == |s.sendings| && s.tx.txSuccess == Sends(s.sendings, InSuccess)
    requires s.tx.txErr == Sends(s.sendings, InError) && s.tx.txOffline == Sends(s.sendings, InOffline)
    ensures var s' := Apply(s, step);
      && s'.tx.txAll == |s'.sendings| && s'.tx.txSuccess == Sends(s'.sendings, InSuccess)
      && s'.tx.txErr == Sends(s'.sendings, InError) && s'.tx.txOffline == Sends(s'.sendings, InOffline)
  {
    TrafficIs(s, step);
    hide Apply, Enabled;
    SendBooks(s, step, InSuccess);
    SendBooks(s, step, InError);
    SendBooks(s, step, InOffline);
    hide Sends;
  }

  // ---------- runs ----------

  const NO_CONNECTIONS := ConnectionCounts(0, 0, 0, 0, 0, 0)
  const NO_PACKETS := PacketCounts(0, 0, 0, 0, 0, 0)

  predicate Initial(s: State) {
    s == State(None, false, false, false, Looking, map[], NO_CONNECTIONS, NO_PACKETS, [], [], 0)
  }

  datatype Run = First(start: State) | Then(run: Run, step: Step) {
    predicate Valid()
      decreases this, 0
    {
      match this
      case First(start) => Initial(start)
      case Then(run, step) => run.Valid() && Enabled(run.Last(), step)
    }

    function Last(): State
      requires Valid()
      decreases this, 1
    {
      match this
      case First(start) => start
      case Then(run, step) => Apply(run.Last(), step)
    }

    predicate Extends(earlier: Run) {
      this == earlier || (Then? && run.Extends(earlier))
    }
  }

  ghost predicate Inv(s: State) {
    Owned(s) && Awake(s) && Opens(s) && Traffic(s)
  }

  lemma OwnedIsInPlace(s: State)
    requires Owned(s)
    ensures InPlace(s)
  {
  }

  lemma Preserved(s: State, step: Step)
    requires Inv(s) && Enabled(s, step)
    ensures Inv(Apply(s, step))
  {
    hide Owned, Awake, Opens, Traffic, Apply, Enabled;
    OwnedKept(s, step);
    OwnedIsInPlace(s);
    AwakeKept(s, step);
    OpensKept(s, step);
    TrafficKept(s, step);
  }

  lemma InitialInv(s: State)
    requires Initial(s)
    ensures Inv(s)
  {
    assert Owned(s) && Awake(s);
    assert Opens(s) by {
      hide Owned, Awake;
    }
    assert Traffic(s) by {
      hide Owned, Awake, Opens;
    }
    hide Owned, Awake, Opens, Traffic;
  }

  lemma {:induction false} Reachable(run: Run)
    requires run.Valid()
    ensures Inv(run.Last())
  {
    hide Inv, Initial, Enabled, Apply;
    match run
    case First(start) => InitialInv(start);
    case Then(earlier, step) =>
      Reachable(earlier);
      Preserved(earlier.Last(), step);
  }

  // ---------- the theorems ----------

  lemma NeverClosedTwice(run: Run, d: Dev)
    requires run.Valid() && d < |run.Last().devices|
    ensures run.Last().devices[d].closes <= 1
  {
    hide run.Valid, run.Last;
    Reachable(run);
    hide Awake, Opens, Traffic;
  }

  // No call is in progress.
  ghost predicate Idle(s: State) {
    forall c | c in s.calls :: s.calls[c].NoCall?
  }

  // When no call is in progress, a device is open exactly when the endpoint or its
  // supervisor still has it; every other one has been closed exactly once.
  lemma ClosedExactlyOnce(run: Run, d: Dev)
    requires run.Valid() && d < |run.Last().devices| && Idle(run.Last())
    ensures var s := run.Last();
      s.devices[d].closes == if s.cur == Some(d) || s.sup == Holding(d) || s.sup == Rejecting(d) then 0 else 1
  {
    hide run.Valid, run.Last;
    Reachable(run);
    assert Held(run.Last(), d);
    assert InPlace(run.Last());
    hide Awake, Opens, Traffic;
  }

  // So once Close has been called and the supervisor is gone, none is left open.
  lemma NothingLeaksAfterClose(run: Run, d: Dev)
    requires run.Valid() && d < |run.Last().devices| && Idle(run.Last()) && run.Last().closed && run.Last().sup.Exited?
    ensures run.Last().devices[d].closes == 1
  {
    hide run.Valid, run.Last;
    ClosedExactlyOnce(run, d);
    ClosedStaysOffline(run);
  }

  lemma ClosedStaysOffline(run: Run)
    requires run.Valid() && run.Last().closed
    ensures run.Last().cur.None?
  {
    hide run.Valid, run.Last;
    Reachable(run);
    hide Awake, Opens, Traffic;
  }

  // A supervisor that waits for a nudge with no device to watch has one coming.
  lemma NoLostNudge(run: Run)
    requires run.Valid() && run.Last().sup.Healthy? && run.Last().cur.None?
    ensures run.Last().wake || exists c :: WillNudge(CallOf(run.Last(), c))
  {
    hide run.Valid, run.Last;
    Reachable(run);
    hide Owned, Opens, Traffic;
  }

  // In particular Close always reaches a healthy supervisor, which then leaves.
  lemma CloseReachesTheSupervisor(run: Run)
    requires run.Valid() && run.Last().closed && run.Last().sup.Healthy? && Idle(run.Last())
    ensures Enabled(run.Last(), WakeUp)
    ensures var woken := Apply(run.Last(), WakeUp); Enabled(woken, Look) && Apply(woken, Look).sup.Exited?
  {
    hide run.Valid, run.Last;
    ClosedStaysOffline(run);
    NoLostNudge(run);
  }

  lemma {:induction false} TallySplits(devices: seq<Device>)
    ensures Tally(devices, IsInstalled) == Tally(devices, IsLive) + Tally(devices, IsDropped) + Tally(devices, IsTaken)
  {
    if devices != [] {
      TallySplits(devices[..|devices| - 1]);
    }
  }

  lemma {:induction false} TallySettled(devices: seq<Device>)
    requires forall d | 0 <= d < |devices| :: devices[d].fate.Dropped? ==> devices[d].fate.stage.Gone?
    ensures Tally(devices, IsDropped) == Tally(devices, IsTotaled)
    ensures Tally(devices, IsTotaled) == Tally(devices, IsAttributed(BySend)) + Tally(devices, IsAttributed(ByReceive))
  {
    if devices != [] {
      TallySettled(devices[..|devices| - 1]);
    }
  }

  // At rest every open is accounted for: successes became disconnects, the live device
  // or a device taken by Close; attempts that were neither successes nor failures were
  // opened into a closed endpoint, or are still in progress.
  lemma OpensAddUp(run: Run)
    requires run.Valid() && Idle(run.Last()) && run.Last().sup != Installed
    ensures var s := run.Last();
      && s.n.successes == s.n.disconnects + (if s.cur.Some? then 1 else 0) + Tally(s.devices, IsTaken)
      && s.n.disconnects == s.n.bySend + s.n.byReceive
      && s.n.attempts == s.n.successes + s.n.failures + Tally(s.devices, IsRejected)
           + (if s.sup.Opening? || s.sup.Holding? then 1 else 0)
  {
    hide run.Valid, run.Last;
    var s := run.Last();
    Reachable(run);
    TallySplits(s.devices);
    forall d: Dev | d < |s.devices| ensures s.devices[d].fate.Dropped? ==> s.devices[d].fate.stage.Gone? {
      assert Held(s, d);
    }
    TallySettled(s.devices);
    hide Owned, Awake, Traffic, Tally;
  }

  // A step that rejects a device, and does not reopen what is closed.
  ghost predicate RejectsWhenClosed(s: State, step: Step)
    requires Enabled(s, step)
  {
    var d, s' := Touched(s, step), Apply(s, step);
    && (s.closed ==> s'.closed)
    && (d.Some? && d.value < |s.devices| && d.value < |s'.devices| && Is(s'.devices[d.value].fate, IsRejected) ==>
          s.closed || Is(s.devices[d.value].fate, IsRejected))
  }

  lemma DropRejectsNothing(s: State, step: Step)
    requires InPlace(s) && Enabled(s, step) && OfDrop(step) && Holds(s, step.c)
    ensures RejectsWhenClosed(s, step)
  {
    DropIs(s, step);
    hide Apply, Enabled;
  }

  lemma CloseRejectsNothing(s: State, step: Step)
    requires InPlace(s) && Enabled(s, step) && OfClose(step) && Holds(s, step.c)
    ensures RejectsWhenClosed(s, step)
  {
    CloseIs(s, step);
    hide Apply, Enabled;
  }

  lemma SupervisorRejectsWhenClosed(s: State, step: Step)
    requires InPlace(s) && Enabled(s, step) && OfSupervisor(step)
    ensures RejectsWhenClosed(s, step)
  {
    SupervisorIs(s, step);
    hide Apply, Enabled;
  }

  lemma OpenEndpointRejectsNothing(s: State, step: Step)
    requires InPlace(s) && Enabled(s, step)
    requires OfDrop(step) || OfClose(step) ==> Holds(s, step.c)
    ensures RejectsWhenClosed(s, step)
  {
    hide Apply, Enabled, InPlace, Holds;
    if OfTraffic(step) {
      TrafficFrame(s, step);
    } else if OfDrop(step) {
      DropRejectsNothing(s, step);
    } else if OfClose(step) {
      CloseRejectsNothing(s, step);
    } else {
      SupervisorRejectsWhenClosed(s, step);
    }
  }

  // Only an endpoint that has been closed rejects a device.
  lemma {:induction false} RejectionsNeedClose(run: Run)
    requires run.Valid() && !run.Last().closed
    ensures Tally(run.Last().devices, IsRejected) == 0
  {
    if run.Then? {
      var s, step := run.run.Last(), run.step;
      Reachable(run.run);
      assert InPlace(s) && (OfDrop(step) || OfClose(step) ==> Holds(s, step.c));
      OpenEndpointRejectsNothing(s, step);
      TallyAfter(s, step, IsRejected);
      hide Apply, Enabled, Inv, Tally, InPlace, Holds;
      RejectionsNeedClose(run.run);
    }
  }

  lemma {:induction false} SendsSettled(sendings: seq<Sending>)
    requires forall i | 0 <= i < |sendings| :: !Moving(sendings[i])
    ensures |sendings| == Sends(sendings, InSuccess) + Sends(sendings, InError)
  {
    if sendings != [] {
      SendsSettled(sendings[..|sendings| - 1]);
    }
  }

  // At rest each Send was a success or an error.
  lemma SendsAddUp(run: Run)
    requires run.Valid() && Idle(run.Last())
    ensures run.Last().tx.txAll == run.Last().tx.txSuccess + run.Last().tx.txErr
  {
    hide run.Valid, run.Last;
    var s := run.Last();
    Reachable(run);
    forall i: nat | i < |s.sendings| ensures !Moving(s.sendings[i]) {
      assert SendingHasCall(s, i);
    }
    SendsSettled(s.sendings);
    hide Owned, Awake, Opens, Sends;
  }

  lemma {:induction false} OfflineIsAnError(sendings: seq<Sending>)
    ensures Sends(sendings, InOffline) <= Sends(sendings, InError)
  {
    if sendings != [] {
      OfflineIsAnError(sendings[..|sendings| - 1]);
    }
  }

  lemma {:induction false} ErrorsGrow(earlier: Run, later: Run)
    requires earlier.Valid() && later.Valid() && later.Extends(earlier)
    ensures earlier.Last().tx.txErr <= later.Last().tx.txErr
  {
    if later != earlier {
      ErrorsGrow(earlier, later.run);
      ErrorsOnlyGrow(later.run.Last(), later.step);
      hide Apply, Enabled;
    }
  }

  lemma ErrorsOnlyGrowInTraffic(s: State, step: Step)
    requires Enabled(s, step) && OfTraffic(step)
    ensures s.tx.txErr <= Apply(s, step).tx.txErr
  {
    TrafficIs(s, step);
    hide Apply, Enabled;
  }

  lemma ErrorsOnlyGrow(s: State, step: Step)
    requires Enabled(s, step)
    ensures s.tx.txErr <= Apply(s, step).tx.txErr
  {
    hide Apply, Enabled;
    if OfTraffic(step) {
      ErrorsOnlyGrowInTraffic(s, step);
    } else {
      SendingsUntouched(s, step);
    }
  }

  // Stats reads its counters one by one without a lock. It subtracts the offline sends
  // it reads first from the errors it reads later, and never gets below zero.
  lemma StatsNeverUnderflow(first: Run, second: Run)
    requires first.Valid() && second.Valid() && second.Extends(first)
    ensures first.Last().tx.txOffline <= second.Last().tx.txErr
  {
    hide first.Valid, first.Last;
    Reachable(first);
    OfflineIsAnError(first.Last().sendings);
    ErrorsGrow(first, second);
    hide Owned, Awake, Opens;
  }
}
