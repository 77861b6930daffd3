/** One transaction lane per channel, whatever the link does and however often the
    radio is replaced: who owns the gate, and what the owner has sent. */
module Ownership {
  import opened Channel
  import opened Options
  import opened Turnaround
  import Sets

  // Exactly one call, or the channel itself, holds the gate token.
  ghost predicate OneLane(l: Lane) {
    && (forall t | t in l.txns :: l.txns[t].pc.Owning() <==> l.holder == Some(t))
    && (l.holder.Some? ==> l.holder.value in l.txns && l.radio.Some?)
    && (l.gate <==> l.radio.Some? && l.holder.None?)
  }

  ghost predicate KnownRadios(l: Lane) {
    && l.base <= |l.reqs|
    && (l.radio.Some? ==> l.radio.value in l.radios)
    && (forall i | 0 <= i < |l.reqs| :: l.reqs[i].radio in l.radios && l.reqs[i].sentAt <= l.now)
  }

  ghost predicate Through(l: Lane, r: RadioId) {
    r in l.radios && forall i | l.base <= i < |l.reqs| :: l.reqs[i].radio == r
  }

  // The requests the owner has sent: one for each attempt, all of them for its own
  // call and through one radio.
  ghost predicate Turn(l: Lane, t: Tid)
    requires t in l.txns && l.base <= |l.reqs|
  {
    var txn := l.txns[t];
    && (forall i | l.base <= i < |l.reqs| :: l.reqs[i].owner == t && l.reqs[i].call == txn.call)
    && match txn.pc
       case Owner => |l.reqs| == l.base
       case LoopHead(r, attempt, sent) =>
         && attempt <= l.retries && (sent <==> attempt > 0)
         && |l.reqs| == l.base + attempt && Through(l, r)
       case Waiting(r, attempt, _) =>
         attempt <= l.retries && |l.reqs| == l.base + attempt + 1 && Through(l, r)
       case Draining(r, until, _) =>
         && |l.reqs| <= l.base + l.retries + 1 && Through(l, r)
         && forall i | l.base <= i < |l.reqs| :: l.reqs[i].sentAt + DrainInterval(l.radios[r].guard) <= until
       case _ => true
  }

  // How many requests belong to calls that no longer own the lane.
  function Past(l: Lane): nat {
    if l.holder.Some? then l.base else |l.reqs|
  }

  ghost predicate SameSend(l: Lane, i: Rid, j: Rid)
    requires i < |l.reqs| && j < |l.reqs|
  {
    l.reqs[i].owner == l.reqs[j].owner && l.reqs[i].call == l.reqs[j].call && l.reqs[i].radio == l.reqs[j].radio
  }

  // The sends of one call are consecutive, equal, through one radio, and no more than
  // the configured attempts.
  ghost predicate Consecutive(l: Lane) {
    forall i, j | 0 <= i <= j < |l.reqs| && l.reqs[i].owner == l.reqs[j].owner ::
      j - i <= l.retries && forall k | i <= k <= j :: SameSend(l, i, k)
  }

  ghost predicate Inv(l: Lane) {
    && OneLane(l)
    && KnownRadios(l)
    && (l.holder.Some? ==> Turn(l, l.holder.value))
    && (forall i | 0 <= i < Past(l) :: l.reqs[i].owner in l.txns && l.txns[l.reqs[i].owner].pc.Done?)
    && Consecutive(l)
  }

  lemma InitialInv(l: Lane)
    requires Initial(l)
    ensures Inv(l)
  {
  }

  // Everything but a send leaves the history of sends alone.
  lemma StillConsecutive(l: Lane, l': Lane)
    requires Consecutive(l) && l'.retries == l.retries && |l'.reqs| == |l.reqs|
    requires forall i | 0 <= i < |l.reqs| ::
      l'.reqs[i].owner == l.reqs[i].owner && l'.reqs[i].call == l.reqs[i].call && l'.reqs[i].radio == l.reqs[i].radio
    ensures Consecutive(l')
  {
    forall i, j | 0 <= i <= j < |l'.reqs| && l'.reqs[i].owner == l'.reqs[j].owner
      ensures j - i <= l'.retries && forall k | i <= k <= j :: SameSend(l', i, k)
    {
      forall k | i <= k <= j ensures SameSend(l', i, k) {
        assert SameSend(l, i, k);
      }
    }
  }

  lemma SetPcKeeps(l: Lane, t: Tid, pc: Pc)
    requires Inv(l) && l.holder == Some(t) && pc.Owning() && Turn(SetPc(l, t, pc), t)
    ensures Inv(SetPc(l, t, pc))
  {
    StillConsecutive(l, SetPc(l, t, pc));
  }

  lemma ReleaseKeeps(l: Lane, t: Tid, result: Result)
    requires Inv(l) && l.holder == Some(t)
    ensures Inv(Release(l, t, result))
  {
    StillConsecutive(l, Release(l, t, result));
  }

  lemma StartDrainKeeps(l: Lane, t: Tid, r: RadioId, after: After)
    requires Inv(l) && l.holder == Some(t) && Through(l, r) && |l.reqs| <= l.base + l.retries + 1
    ensures Inv(StartDrain(l, t, r, after))
  {
    hide Consecutive;
    SetPcKeeps(l, t, Draining(r, l.now + DrainInterval(l.radios[r].guard), after));
  }

  lemma SendKeepsConsecutive(l: Lane, t: Tid)
    requires Inv(l) && Enabled(l, Attempt(t, true)) && !l.txns[t].canceled
    ensures Consecutive(Apply(l, Attempt(t, true)))
  {
    var l' := Apply(l, Attempt(t, true));
    CallStep(l, Attempt(t, true));
    var n := |l.reqs|;
    hide Apply;
    forall i, j | 0 <= i <= j < |l'.reqs| && l'.reqs[i].owner == l'.reqs[j].owner
      ensures j - i <= l'.retries && forall k | i <= k <= j :: SameSend(l', i, k)
    {
      assert j == n ==> i >= l.base;
      forall k | i <= k <= j ensures SameSend(l', i, k) {
        assert j < n ==> SameSend(l, i, k);
      }
    }
  }

  lemma SendKeeps(l: Lane, t: Tid)
    requires Inv(l) && Enabled(l, Attempt(t, true)) && !l.txns[t].canceled
    ensures Inv(Apply(l, Attempt(t, true)))
  {
    SendKeepsConsecutive(l, t);
    hide Consecutive;
  }

  lemma AttemptKeeps(l: Lane, t: Tid, ok: bool)
    requires Inv(l) && Enabled(l, Attempt(t, ok))
    ensures Inv(Apply(l, Attempt(t, ok)))
  {
    var LoopHead(r, attempt, sent) := l.txns[t].pc;
    hide Consecutive;
    if !l.txns[t].canceled && ok {
      SendKeeps(l, t);
    } else if sent {
      StartDrainKeeps(l, t, r, if l.txns[t].canceled then ReturnCanceled else Return(Failed(SendError)));
    } else {
      ReleaseKeeps(l, t, Failed(if l.txns[t].canceled then Canceled else SendError));
    }
  }

  // Neither the buffers nor the progress of requests and replies matter here.
  lemma LinkKeeps(l: Lane, l': Lane)
    requires Inv(l)
    requires l' == l.(radios := l'.radios, reqs := l'.reqs, now := l'.now)
    requires l'.now >= l.now && |l'.reqs| == |l.reqs|
    requires forall r | r in l.radios :: r in l'.radios && l'.radios[r].guard == l.radios[r].guard
    requires forall i | 0 <= i < |l.reqs| :: l'.reqs[i] == l.reqs[i].(stage := l'.reqs[i].stage)
    ensures Inv(l')
  {
    StillConsecutive(l, l');
    hide Consecutive;
  }

  lemma OutsiderKeeps(l: Lane, t: Tid, txn: Txn)
    requires Inv(l) && l.holder != Some(t) && !txn.pc.Owning()
    requires t in l.txns && l.txns[t].pc.Done? ==> txn.pc.Done?
    ensures Inv(l.(txns := l.txns[t := txn]))
  {
    StillConsecutive(l, l.(txns := l.txns[t := txn]));
    hide Consecutive;
  }

  lemma TurnStays(l: Lane, t: Tid, u: Tid)
    requires t in l.txns && u in l.txns && l.base <= |l.reqs| && Turn(l, u)
    ensures Turn(l.(txns := l.txns[t := l.txns[t].(canceled := true)]), u)
  {
  }

  lemma CancelKeeps(l: Lane, t: Tid)
    requires Inv(l) && Enabled(l, Cancel(t))
    ensures Inv(Apply(l, Cancel(t)))
  {
    var l' := l.(txns := l.txns[t := l.txns[t].(canceled := true)]);
    assert Apply(l, Cancel(t)) == l';
    hide Apply, Enabled;
    if l.holder.Some? {
      TurnStays(l, t, l.holder.value);
    }
    StillConsecutive(l, l');
    hide Consecutive, Turn;
  }

  lemma AddRadioKeeps(l: Lane, r: RadioId, guard: int)
    requires Inv(l) && Enabled(l, AddRadio(r, guard))
    ensures Inv(Apply(l, AddRadio(r, guard)))
  {
    StillConsecutive(l, Apply(l, AddRadio(r, guard)));
    hide Consecutive;
  }

  lemma TakeGateKeeps(l: Lane, t: Tid)
    requires Inv(l) && Enabled(l, TakeGate(t))
    ensures Inv(Apply(l, TakeGate(t)))
  {
    StillConsecutive(l, Apply(l, TakeGate(t)));
    hide Consecutive;
  }

  lemma BeginKeeps(l: Lane, t: Tid)
    requires Inv(l) && Enabled(l, Begin(t))
    ensures Inv(Apply(l, Begin(t)))
  {
    if l.txns[t].canceled {
      ReleaseKeeps(l, t, Failed(Canceled));
    } else {
      SetPcKeeps(l, t, LoopHead(l.radio.value, 0, false));
    }
  }

  lemma WaitPacketKeeps(l: Lane, t: Tid)
    requires Inv(l) && Enabled(l, WaitPacket(t))
    ensures Inv(Apply(l, WaitPacket(t)))
  {
    hide Consecutive;
    var Waiting(r, attempt, _) := l.txns[t].pc;
    var popped := Pop(l, r);
    LinkKeeps(l, popped);
    if Completes(l, t) {
      if attempt > 0 {
        StartDrainKeeps(popped, t, r, Return(Completion(l, t)));
      } else {
        ReleaseKeeps(popped, t, Completion(l, t));
      }
    }
  }

  lemma WaitExpireKeeps(l: Lane, t: Tid)
    requires Inv(l) && Enabled(l, WaitExpire(t))
    ensures Inv(Apply(l, WaitExpire(t)))
  {
    var Waiting(r, attempt, _) := l.txns[t].pc;
    if attempt < l.retries {
      SetPcKeeps(l, t, LoopHead(r, attempt + 1, true));
    } else {
      StartDrainKeeps(l, t, r, ReturnExpired);
    }
  }

  lemma DrainPacketKeeps(l: Lane, t: Tid)
    requires Inv(l) && Enabled(l, DrainPacket(t))
    ensures Inv(Apply(l, DrainPacket(t)))
  {
    LinkKeeps(l, Pop(l, l.txns[t].pc.radio));
  }

  lemma OutsideKeeps(l: Lane, s: Step)
    requires Inv(l) && Enabled(l, s) && Outside(s)
    ensures Inv(Apply(l, s))
  {
    OutsideStep(l, s);
    hide Apply, Enabled, Inv;
    LinkKeeps(l, Apply(l, s));
  }

  lemma QueueKeeps(l: Lane, s: Step)
    requires Inv(l) && Enabled(l, s) && (s.Start? || s.LeaveQueue?)
    ensures Inv(Apply(l, s))
  {
    OutsiderKeeps(l, s.t, Apply(l, s).txns[s.t]) by {
      hide Consecutive, Turn;
    }
  }

  lemma WaitCancelKeeps(l: Lane, t: Tid)
    requires Inv(l) && Enabled(l, WaitCancel(t))
    ensures Inv(Apply(l, WaitCancel(t)))
  {
    StartDrainKeeps(l, t, l.txns[t].pc.radio, ReturnCanceled);
  }

  lemma DrainEndKeeps(l: Lane, t: Tid)
    requires Inv(l) && Enabled(l, DrainEnd(t))
    ensures Inv(Apply(l, DrainEnd(t)))
  {
    ReleaseKeeps(l, t, AfterDrain(l.txns[t]));
  }

  // Every step of every call and of everything around them.
  lemma Preserved(l: Lane, s: Step)
    requires Inv(l) && Enabled(l, s)
    ensures Inv(Apply(l, s))
  {
    hide Inv, Apply, Enabled;
    match s
    case AddRadio(r, guard) => AddRadioKeeps(l, r, guard);
    case Cancel(t) => CancelKeeps(l, t);
    case Start(_, _, _) => QueueKeeps(l, s);
    case LeaveQueue(_) => QueueKeeps(l, s);
    case TakeGate(t) => TakeGateKeeps(l, t);
    case Begin(t) => BeginKeeps(l, t);
    case Attempt(t, ok) => AttemptKeeps(l, t, ok);
    case WaitPacket(t) => WaitPacketKeeps(l, t);
    case WaitCancel(t) => WaitCancelKeeps(l, t);
    case WaitExpire(t) => WaitExpireKeeps(l, t);
    case DrainPacket(t) => DrainPacketKeeps(l, t);
    case DrainEnd(t) => DrainEndKeeps(l, t);
    case _ => OutsideKeeps(l, s);
  }

  // ---------- what holds in every reachable state ----------

  lemma {:induction false} Reachable(run: Run)
    requires run.Valid()
    ensures Inv(run.Last())
  {
    match run
    case First(start) => InitialInv(start);
    case Then(earlier, step) =>
      Reachable(earlier);
      Preserved(earlier.Last(), step);
  }

  ghost function Owners(l: Lane): set<Tid> {
    set t | t in l.txns && l.txns[t].pc.Owning()
  }

  // Gate tokens plus owners is one from the moment the channel has a radio.
  lemma TokensPlusOwners(run: Run)
    requires run.Valid() && run.Last().radio.Some?
    ensures |Owners(run.Last())| + (if run.Last().gate then 1 else 0) == 1
  {
    hide run.Valid, run.Last;
    var l := run.Last();
    Reachable(run);
    assert Owners(l) == if l.holder.Some? then {l.holder.value} else {};
  }

  lemma WithoutRadioNobodyOwns(run: Run)
    requires run.Valid() && run.Last().radio.None?
    ensures Owners(run.Last()) == {} && !run.Last().gate
  {
    hide run.Valid, run.Last;
    Reachable(run);
  }

  lemma OwnersAreKnown(l: Lane)
    requires Inv(l)
    ensures forall i | 0 <= i < |l.reqs| :: l.reqs[i].owner in l.txns
  {
    hide Consecutive;
  }

  ghost function SendsOf(l: Lane, t: Tid): set<Rid> {
    set i: Rid | i < |l.reqs| && l.reqs[i].owner == t
  }

  function Window(lo: nat, n: nat): (s: set<nat>)
    ensures |s| == n
    ensures forall k :: k in s <==> lo <= k < lo + n
  {
    if n == 0 then {} else Window(lo, n - 1) + {lo + n - 1}
  }

  // A call sends at most retries + 1 times, always the same request through the same
  // radio, and nobody else sends in between.
  lemma SendsOfOneCall(run: Run, t: Tid, i: Rid, j: Rid)
    requires run.Valid() && i <= j && i in SendsOf(run.Last(), t) && j in SendsOf(run.Last(), t)
    ensures forall k | i <= k <= j :: k in SendsOf(run.Last(), t) && SameSend(run.Last(), i, k)
    ensures |SendsOf(run.Last(), t)| <= run.Last().retries + 1
  {
    hide run.Valid, run.Last;
    var l := run.Last();
    Reachable(run);
    forall k | i <= k <= j ensures k in SendsOf(l, t) && SameSend(l, i, k) {
      assert SameSend(l, i, k);
    }
    var lo := FirstSend(l, t, i);
    var window := Window(lo, l.retries + 1);
    forall k | k in SendsOf(l, t) ensures k in window {
      assert l.reqs[lo].owner == l.reqs[k].owner;
    }
    Sets.SubsetSize(SendsOf(l, t), window);
  }

  lemma FirstSend(l: Lane, t: Tid, i: Rid) returns (lo: Rid)
    requires i in SendsOf(l, t)
    ensures lo in SendsOf(l, t) && forall k | k in SendsOf(l, t) :: lo <= k
  {
    lo := 0;
    while lo !in SendsOf(l, t)
      invariant lo <= i && forall k | k in SendsOf(l, t) :: lo <= k
      decreases i - lo
    {
      lo := lo + 1;
    }
  }

  // ---------- a call that owns the lane gets to its end ----------

  // Steps of its own that a call still has to take, not counting packets it reads.
  function Rank(l: Lane, t: Tid): int
    requires t in l.txns
  {
    match l.txns[t].pc
    case Queued => 2 * l.retries + 6
    case Owner => 2 * l.retries + 5
    case LoopHead(_, attempt, _) => 2 * (l.retries - attempt) + 4
    case Waiting(_, attempt, _) => 2 * (l.retries - attempt) + 3
    case Draining(_, _, _) => 1
    case Done(_) => 0
    case Refused => 0
  }

  predicate OwnStep(s: Step, t: Tid) {
    s == LeaveQueue(t) || s == TakeGate(t) || s == Begin(t) || s == Attempt(t, true) || s == Attempt(t, false)
    || s == WaitCancel(t) || s == WaitExpire(t) || s == DrainEnd(t)
  }

  lemma AttemptRunsOut(l: Lane, t: Tid, ok: bool)
    requires Inv(l) && Enabled(l, Attempt(t, ok))
    ensures t in Apply(l, Attempt(t, ok)).txns && 0 <= Rank(Apply(l, Attempt(t, ok)), t) < Rank(l, t)
  {
    hide Consecutive;
  }

  lemma QueueRunsOut(l: Lane, t: Tid, s: Step)
    requires Enabled(l, s) && (s == LeaveQueue(t) || s == TakeGate(t) || s == Begin(t))
    ensures t in Apply(l, s).txns && 0 <= Rank(Apply(l, s), t) < Rank(l, t)
  {
  }

  lemma WaitRunsOut(l: Lane, t: Tid, s: Step)
    requires Inv(l) && Enabled(l, s) && (s == WaitCancel(t) || s == WaitExpire(t) || s == DrainEnd(t))
    ensures t in Apply(l, s).txns && 0 <= Rank(Apply(l, s), t) < Rank(l, t)
  {
    hide Consecutive;
  }

  // Every step of its own brings a call nearer to its return.
  lemma OwnStepsRunOut(l: Lane, t: Tid, s: Step)
    requires Inv(l) && Enabled(l, s) && OwnStep(s, t)
    ensures t in l.txns && t in Apply(l, s).txns && 0 <= Rank(Apply(l, s), t) < Rank(l, t)
  {
    hide Inv, Apply, Rank;
    if s.Attempt? {
      AttemptRunsOut(l, t, s.ok);
    } else if s.WaitCancel? || s.WaitExpire? || s.DrainEnd? {
      WaitRunsOut(l, t, s);
    } else {
      QueueRunsOut(l, t, s);
    }
  }

  // Reading a packet never moves a call back, and the buffer shrinks.
  lemma ReadingOnlyHelps(l: Lane, t: Tid, s: Step)
    requires Inv(l) && Enabled(l, s) && (s == WaitPacket(t) || s == DrainPacket(t))
    ensures 0 <= Rank(Apply(l, s), t) <= Rank(l, t)
    ensures var r := l.txns[t].pc.radio; |Apply(l, s).radios[r].received| == |l.radios[r].received| - 1
  {
    hide Consecutive;
  }

  // Once its timer is due, an owner always has a step of its own; a cancellation
  // cannot take it away, nor can a silent or a closed radio.
  lemma OwnerIsNeverStuck(l: Lane, t: Tid) returns (due: int, s: Step)
    requires Inv(l) && t in l.txns && l.txns[t].pc.Owning()
    ensures OwnStep(s, t) && forall now | now >= due :: Enabled(l.(now := now), s)
  {
    hide Consecutive;
    match l.txns[t].pc
    case Owner => due, s := 0, Begin(t);
    case LoopHead(_, _, _) => due, s := 0, Attempt(t, true);
    case Waiting(_, _, deadline) => due, s := deadline, WaitExpire(t);
    case Draining(_, until, _) => due, s := until, DrainEnd(t);
  }
}
