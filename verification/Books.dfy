/** What the counters of lib/site/engine/metrics.go add up to in every reachable state, and
    how they follow the calls, the sends and the packets of the run. */
module Books {
  import opened Accounting
  import opened Channel
  import opened Options
  import Ownership
  import Sets

  // ---------- one node and operation's share of a step ----------

  // Attempts, failed sends and expired waits.
  function AttemptShare(l: Lane, st: OpStats, s: Step, a: Addr, isGet: bool): OpStats
    requires Enabled(l, s)
  {
    if Tries(l, s, a, isGet) then
      var st := if l.txns[s.t].pc.attempt == 0 then st.(initial := st.initial + 1) else st.(retry := st.retry + 1);
      if s.ok then st else st.(sendError := st.sendError + 1)
    else if s.WaitExpire? && Mine(l.txns[s.t].call, a, isGet) then st.(timeout := st.timeout + 1)
    else st
  }

  // A call of this node and operation makes an attempt.
  predicate Tries(l: Lane, s: Step, a: Addr, isGet: bool)
    requires Enabled(l, s)
  {
    s.Attempt? && !l.txns[s.t].canceled && Mine(l.txns[s.t].call, a, isGet)
  }

  // The outcome, with the latency of a success.
  function OutcomeShare(st: OpStats, mark: Option<Outcome>, timed: bool): OpStats {
    match mark
    case None => st
    case Some(o) => if timed then Bump(st, o).(latencyCount := st.latencyCount + 1) else Bump(st, o)
  }

  function StatsAfter(l: Lane, st: OpStats, s: Step, a: Addr, isGet: bool): OpStats
    requires Enabled(l, s)
  {
    OutcomeShare(AttemptShare(l, st, s, a, isGet), Mark(l, s, a, isGet), s.WaitPacket?)
  }

  lemma OutcomeOf(m: Ledger, call: Call, o: Outcome, a: Addr, isGet: bool)
    requires a in m
    ensures AddOutcome(m, call, o).Keys == m.Keys
    ensures AddOutcome(m, call, o)[a].Of(isGet) ==
      if Mine(call, a, isGet) then Bump(m[a].Of(isGet), o) else m[a].Of(isGet)
  {
    hide Bump;
  }

  lemma LatencyOf(m: Ledger, call: Call, elapsed: int, a: Addr, isGet: bool)
    requires a in m
    ensures AddLatency(m, call, elapsed).Keys == m.Keys
    ensures var st := m[a].Of(isGet);
      AddLatency(m, call, elapsed)[a].Of(isGet) ==
        if Mine(call, a, isGet) then st.(latencyCount := st.latencyCount + 1) else st
  {
    hide Bucketed;
  }

  lemma PacketOf(l: Lane, m: Ledger, s: Step, a: Addr, isGet: bool)
    requires Enabled(l, s) && a in m
    ensures CountPacket(l, m, s).Keys == m.Keys && CountPacket(l, m, s)[a].Of(isGet) == m[a].Of(isGet)
  {
    hide Inspected, Completes, Source;
  }

  lemma AttemptOf(l: Lane, m: Ledger, s: Step, a: Addr, isGet: bool)
    requires Enabled(l, s) && a in m
    ensures CountAttempt(l, m, s).Keys == m.Keys
    ensures CountAttempt(l, m, s)[a].Of(isGet) == AttemptShare(l, m[a].Of(isGet), s, a, isGet)
  {
  }

  lemma NotedOf(l: Lane, m: Ledger, s: Step, a: Addr, isGet: bool)
    requires Enabled(l, s) && a in m
    ensures CountOutcome(l, m, s).Keys == m.Keys
    ensures CountOutcome(l, m, s)[a].Of(isGet) == OutcomeShare(m[a].Of(isGet), Mark(l, s, a, isGet), s.WaitPacket?)
  {
    hide AddOutcome, AddLatency, Bump;
    match Noted(l, s)
    case None =>
    case Some((t, o)) =>
      var call := CallOf(l, s, t);
      OutcomeOf(m, call, o, a, isGet);
      if s.WaitPacket? {
        hide Noted;
        LatencyOf(AddOutcome(m, call, o), call, l.now - l.txns[t].started, a, isGet);
        BumpKeepsLatency(m[a].Of(isGet), o);
      }
  }

  lemma BumpKeepsLatency(st: OpStats, o: Outcome)
    ensures Bump(st, o).latencyCount == st.latencyCount
  {
  }

  lemma CountIsPerOperation(l: Lane, m: Ledger, s: Step, a: Addr, isGet: bool)
    requires Enabled(l, s) && a in m
    ensures a in Count(l, m, s) && Count(l, m, s)[a].Of(isGet) == StatsAfter(l, m[a].Of(isGet), s, a, isGet)
  {
    hide Enabled, CountPacket, CountAttempt, CountOutcome, AttemptShare, OutcomeShare;
    PacketOf(l, m, s, a, isGet);
    AttemptOf(l, CountPacket(l, m, s), s, a, isGet);
    NotedOf(l, CountAttempt(l, CountPacket(l, m, s), s), s, a, isGet);
  }

  // ---------- outcomes and latencies ----------

  ghost predicate OutcomesBalance(l: Lane, st: OpStats, a: Addr, isGet: bool) {
    && st.outcomes.Keys == OUTCOMES
    && (forall o | o in OUTCOMES :: st.outcomes[o] == |Tally(l, a, isGet, o)|)
    && st.latencyCount == st.outcomes[SuccessFirst] + st.outcomes[SuccessRetry]
    && st.sendError == st.outcomes[SendError]
  }

  function More(mark: Option<Outcome>, o: Outcome): nat {
    if mark == Some(o) then 1 else 0
  }

  lemma BumpMoves(st: OpStats, o: Outcome)
    requires st.outcomes.Keys == OUTCOMES
    ensures var st' := Bump(st, o);
      && st'.outcomes.Keys == OUTCOMES
      && (forall p | p in OUTCOMES :: st'.outcomes[p] == st.outcomes[p] + if p == o then 1 else 0)
      && st'.initial == st.initial && st'.retry == st.retry && st'.timeout == st.timeout
      && st'.sendError == st.sendError
  {
    match o
    case SuccessFirst | SuccessRetry | TimedOut | SendError | Canceled | NoRadio => assert o in OUTCOMES;
  }

  lemma OutcomesMove(st: OpStats, mark: Option<Outcome>, timed: bool)
    requires st.outcomes.Keys == OUTCOMES
    ensures var st' := OutcomeShare(st, mark, timed);
      && st'.outcomes.Keys == OUTCOMES
      && (forall o | o in OUTCOMES :: st'.outcomes[o] == st.outcomes[o] + More(mark, o))
      && st'.initial == st.initial && st'.retry == st.retry && st'.timeout == st.timeout
      && st'.sendError == st.sendError
      && st'.latencyCount == st.latencyCount + if timed && mark.Some? then 1 else 0
  {
    if mark.Some? {
      BumpMoves(st, mark.value);
      BumpKeepsLatency(st, mark.value);
      hide Bump;
    }
  }

  // Only a matched reply is a success, and only a failed send a send error.
  lemma MarksOfStep(l: Lane, s: Step, a: Addr, isGet: bool)
    requires Enabled(l, s)
    ensures var mark := Mark(l, s, a, isGet);
      && (mark == Some(SuccessFirst) || mark == Some(SuccessRetry) <==> s.WaitPacket? && mark.Some?)
      && (mark == Some(SendError) <==> Tries(l, s, a, isGet) && !s.ok)
  {
    hide Completes;
  }

  lemma AttemptsLeaveOutcomes(l: Lane, st: OpStats, s: Step, a: Addr, isGet: bool)
    requires Enabled(l, s)
    ensures var st' := AttemptShare(l, st, s, a, isGet);
      && st'.sendError == st.sendError + (if Tries(l, s, a, isGet) && !s.ok then 1 else 0)
      && st'.outcomes == st.outcomes && st'.latencyCount == st.latencyCount
  {
  }

  lemma OutcomesStayBalanced(l: Lane, st: OpStats, s: Step, a: Addr, isGet: bool)
    requires Enabled(l, s) && OutcomesBalance(l, st, a, isGet)
    ensures OutcomesBalance(Apply(l, s), StatsAfter(l, st, s, a, isGet), a, isGet)
  {
    hide Apply, Enabled, Tally, AttemptShare, OutcomeShare, Mark, Tries;
    MarksOfStep(l, s, a, isGet);
    AttemptsLeaveOutcomes(l, st, s, a, isGet);
    OutcomesMove(AttemptShare(l, st, s, a, isGet), Mark(l, s, a, isGet), s.WaitPacket?);
    forall o | o in OUTCOMES
      ensures |Tally(Apply(l, s), a, isGet, o)| == |Tally(l, a, isGet, o)| + More(Mark(l, s, a, isGet), o)
    {
      TallyStep(l, s, a, isGet, o);
    }
  }

  // ---------- retries ----------

  // The call of this node and operation that owns the lane, if it has made an attempt.
  predicate Attempting(l: Lane, a: Addr, isGet: bool) {
    l.holder.Some? && l.holder.value in l.txns &&
    var txn := l.txns[l.holder.value];
    Mine(txn.call, a, isGet) && (txn.pc.Waiting? || (txn.pc.LoopHead? && txn.pc.attempt > 0))
  }

  // Retries never outrun expired waits nor the configured number for each call.
  ghost predicate Paced(l: Lane, st: OpStats, a: Addr, isGet: bool) {
    if Attempting(l, a, isGet) then
      var pc := l.txns[l.holder.value].pc;
      && st.initial > 0
      && (pc.LoopHead? ==> st.retry < st.timeout && st.retry <= l.retries * (st.initial - 1) + pc.attempt - 1)
      && (pc.Waiting? ==> st.retry <= st.timeout && st.retry <= l.retries * (st.initial - 1) + pc.attempt)
    else
      st.retry <= st.timeout && st.retry <= l.retries * st.initial
  }

  // An owner is the holder, and its attempts are within the configuration.
  lemma OwnerHolds(l: Lane, t: Tid)
    requires Ownership.Inv(l) && t in l.txns
    ensures l.txns[t].pc.Owning() <==> l.holder == Some(t)
    ensures match l.txns[t].pc
      case LoopHead(_, attempt, sent) => attempt <= l.retries && (sent <==> attempt > 0)
      case Waiting(_, attempt, _) => attempt <= l.retries
      case _ => true
  {
    hide Ownership.Consecutive;
  }

  lemma PacedKeptBySend(l: Lane, st: OpStats, t: Tid, a: Addr, isGet: bool)
    requires Ownership.Inv(l) && Enabled(l, Attempt(t, true)) && !l.txns[t].canceled && Paced(l, st, a, isGet)
    ensures Paced(Apply(l, Attempt(t, true)), AttemptShare(l, st, Attempt(t, true), a, isGet), a, isGet)
  {
    hide Ownership.Inv, Ownership.Turn, Ownership.Consecutive, Recorded;
    OwnerHolds(l, t);
    assert l.retries * (st.initial - 1) + l.retries == l.retries * st.initial;
  }

  lemma PacedKeptByFailure(l: Lane, st: OpStats, s: Step, a: Addr, isGet: bool)
    requires Ownership.Inv(l) && Enabled(l, s) && Paced(l, st, a, isGet)
    requires s.Attempt? && (l.txns[s.t].canceled || !s.ok)
    ensures Paced(Apply(l, s), AttemptShare(l, st, s, a, isGet), a, isGet)
  {
    hide Ownership.Inv, Ownership.Turn, Ownership.Consecutive, Recorded;
    OwnerHolds(l, s.t);
    assert l.retries * (st.initial - 1) + l.retries == l.retries * st.initial;
  }

  lemma PacedKeptByPacket(l: Lane, st: OpStats, s: Step, a: Addr, isGet: bool)
    requires Ownership.Inv(l) && Enabled(l, s) && Paced(l, st, a, isGet) && (s.WaitPacket? || s.WaitCancel?)
    ensures Paced(Apply(l, s), AttemptShare(l, st, s, a, isGet), a, isGet)
  {
    hide Ownership.Inv, Completes, Completion, Ownership.Turn, Ownership.Consecutive, Recorded;
    OwnerHolds(l, s.t);
    assert l.retries * (st.initial - 1) + l.retries == l.retries * st.initial;
  }

  lemma PacedKeptByExpiry(l: Lane, st: OpStats, s: Step, a: Addr, isGet: bool)
    requires Ownership.Inv(l) && Enabled(l, s) && Paced(l, st, a, isGet) && s.WaitExpire?
    ensures Paced(Apply(l, s), AttemptShare(l, st, s, a, isGet), a, isGet)
  {
    hide Ownership.Inv, Ownership.Turn, Ownership.Consecutive, Recorded;
    OwnerHolds(l, s.t);
    assert l.retries * (st.initial - 1) + l.retries == l.retries * st.initial;
  }

  lemma PacedKeptInQueue(l: Lane, st: OpStats, s: Step, a: Addr, isGet: bool)
    requires Ownership.Inv(l) && Enabled(l, s) && Paced(l, st, a, isGet) && (s.Start? || s.LeaveQueue?)
    ensures Paced(Apply(l, s), AttemptShare(l, st, s, a, isGet), a, isGet)
  {
    if s.LeaveQueue? {
      OwnerHolds(l, s.t);
    }
    if l.holder.Some? {
      HolderIsThere(l);
    }
    hide Ownership.Inv;
  }

  lemma HolderIsThere(l: Lane)
    requires Ownership.Inv(l) && l.holder.Some?
    ensures l.holder.value in l.txns
  {
    hide Ownership.Turn, Ownership.Consecutive;
  }

  lemma PacedKeptByGate(l: Lane, st: OpStats, s: Step, a: Addr, isGet: bool)
    requires Ownership.Inv(l) && Enabled(l, s) && Paced(l, st, a, isGet) && (s.TakeGate? || s.Begin?)
    ensures Paced(Apply(l, s), AttemptShare(l, st, s, a, isGet), a, isGet)
  {
    OwnerHolds(l, s.t);
    GateIsFree(l);
    hide Ownership.Inv;
  }

  lemma GateIsFree(l: Lane)
    requires Ownership.Inv(l)
    ensures l.gate ==> l.holder.None?
  {
    hide Ownership.Turn, Ownership.Consecutive;
  }

  lemma PacedKeptByDrain(l: Lane, st: OpStats, s: Step, a: Addr, isGet: bool)
    requires Ownership.Inv(l) && Enabled(l, s) && Paced(l, st, a, isGet) && (s.DrainPacket? || s.DrainEnd?)
    ensures Paced(Apply(l, s), AttemptShare(l, st, s, a, isGet), a, isGet)
  {
    OwnerHolds(l, s.t);
    hide Ownership.Inv, AfterDrain;
  }

  // Steps that are no call's leave every call where it is.
  lemma HolderStays(l: Lane, s: Step)
    requires Enabled(l, s) && !OfCall(s)
    ensures Apply(l, s).holder == l.holder && Apply(l, s).retries == l.retries
    ensures forall t | t in l.txns ::
      t in Apply(l, s).txns && Apply(l, s).txns[t].pc == l.txns[t].pc && Apply(l, s).txns[t].call == l.txns[t].call
    ensures Apply(l, s).txns.Keys == l.txns.Keys
  {
    if Outside(s) {
      OutsideStep(l, s);
      hide Apply, Enabled;
    }
  }

  lemma PacedKeptAround(l: Lane, st: OpStats, s: Step, a: Addr, isGet: bool)
    requires Enabled(l, s) && Paced(l, st, a, isGet) && !OfCall(s)
    ensures Paced(Apply(l, s), AttemptShare(l, st, s, a, isGet), a, isGet)
  {
    HolderStays(l, s);
    hide Apply, Enabled;
  }

  lemma PacedKept(l: Lane, st: OpStats, s: Step, a: Addr, isGet: bool)
    requires Ownership.Inv(l) && Enabled(l, s) && Paced(l, st, a, isGet)
    ensures Paced(Apply(l, s), AttemptShare(l, st, s, a, isGet), a, isGet)
  {
    hide Ownership.Inv, Apply, Paced, AttemptShare;
    if s.Attempt? && s.ok && !l.txns[s.t].canceled {
      PacedKeptBySend(l, st, s.t, a, isGet);
    } else if s.Attempt? {
      PacedKeptByFailure(l, st, s, a, isGet);
    } else if s.WaitExpire? {
      PacedKeptByExpiry(l, st, s, a, isGet);
    } else if s.WaitPacket? || s.WaitCancel? {
      PacedKeptByPacket(l, st, s, a, isGet);
    } else if s.Start? || s.LeaveQueue? {
      PacedKeptInQueue(l, st, s, a, isGet);
    } else if s.TakeGate? || s.Begin? {
      PacedKeptByGate(l, st, s, a, isGet);
    } else if s.DrainPacket? || s.DrainEnd? {
      PacedKeptByDrain(l, st, s, a, isGet);
    } else {
      PacedKeptAround(l, st, s, a, isGet);
    }
  }

  lemma PacedIgnoresOutcomes(l: Lane, st: OpStats, st': OpStats, a: Addr, isGet: bool)
    requires Paced(l, st, a, isGet) && st'.initial == st.initial && st'.retry == st.retry && st'.timeout == st.timeout
    ensures Paced(l, st', a, isGet)
  {
  }

  // ---------- attempts and sends ----------

  // The requests of this node and operation.
  ghost function SendsFor(l: Lane, a: Addr, isGet: bool): set<Rid> {
    set i: Rid | i < |l.reqs| && Mine(l.reqs[i].call, a, isGet)
  }

  // The call has sent a request, or failed to send its first one.
  ghost predicate HasTried(l: Lane, t: Tid)
    requires t in l.txns
  {
    Recorded(l.txns[t].pc) == Some(SendError) || exists i: Rid :: i < |l.reqs| && l.reqs[i].owner == t
  }

  ghost predicate IsTried(l: Lane, a: Addr, isGet: bool, t: Tid) {
    t in l.txns && Mine(l.txns[t].call, a, isGet) && HasTried(l, t)
  }

  ghost function Tried(l: Lane, a: Addr, isGet: bool): set<Tid> {
    set t | t in l.txns && IsTried(l, a, isGet, t)
  }

  // One initial attempt for each call that has tried, and a request for each attempt
  // that did not fail.
  ghost predicate AttemptsBalance(l: Lane, st: OpStats, a: Addr, isGet: bool) {
    && st.initial == |Tried(l, a, isGet)|
    && st.initial + st.retry == |SendsFor(l, a, isGet)| + st.sendError
  }

  ghost function NewSend(l: Lane, s: Step, a: Addr, isGet: bool): Option<Rid>
    requires Enabled(l, s)
  {
    if Tries(l, s, a, isGet) && s.ok then Some(|l.reqs|) else None
  }

  lemma RequestsGrow(l: Lane, s: Step)
    requires Enabled(l, s)
    ensures |Apply(l, s).reqs| == |l.reqs| + if Sends(l, s) then 1 else 0
    ensures Sends(l, s) ==> Apply(l, s).reqs[|l.reqs|] == Sent(l, s)
    ensures forall i | 0 <= i < |l.reqs| ::
      Apply(l, s).reqs[i].owner == l.reqs[i].owner && Apply(l, s).reqs[i].call == l.reqs[i].call
  {
    if OfCall(s) {
      CallStep(l, s);
      hide Apply, Enabled;
    } else if Outside(s) {
      OutsideStep(l, s);
      hide Apply, Enabled;
    }
  }

  lemma SendsMove(l: Lane, s: Step, a: Addr, isGet: bool)
    requires Enabled(l, s)
    ensures |SendsFor(Apply(l, s), a, isGet)| ==
      |SendsFor(l, a, isGet)| + if NewSend(l, s, a, isGet).Some? then 1 else 0
  {
    hide Apply, Enabled;
    RequestsGrow(l, s);
    Sets.MaybeOneMore(SendsFor(l, a, isGet), SendsFor(Apply(l, s), a, isGet), NewSend(l, s, a, isGet));
  }

  // The call whose initial attempt this is.
  ghost function NewTry(l: Lane, s: Step, a: Addr, isGet: bool): Option<Tid>
    requires Enabled(l, s)
  {
    if Tries(l, s, a, isGet) && l.txns[s.t].pc.attempt == 0 then Some(s.t) else None
  }

  // A call at the head of its retry loop has sent one request for each earlier attempt.
  lemma SentSoFar(l: Lane, t: Tid)
    requires Ownership.Inv(l) && t in l.txns && l.txns[t].pc.LoopHead?
    ensures l.base <= |l.reqs| == l.base + l.txns[t].pc.attempt
    ensures forall i | l.base <= i < |l.reqs| :: l.reqs[i].owner == t
    ensures forall i | 0 <= i < l.base :: l.reqs[i].owner != t
  {
    hide Ownership.Consecutive;
  }

  lemma TriesOnce(l: Lane, t: Tid)
    requires Ownership.Inv(l) && t in l.txns && l.txns[t].pc.LoopHead?
    ensures HasTried(l, t) <==> l.txns[t].pc.attempt > 0
  {
    SentSoFar(l, t);
    hide Ownership.Inv;
    if l.txns[t].pc.attempt > 0 {
      assert l.reqs[l.base].owner == t;
    }
  }

  lemma TryingHasTried(l: Lane, t: Tid, ok: bool)
    requires Enabled(l, Attempt(t, ok)) && !l.txns[t].canceled
    ensures t in Apply(l, Attempt(t, ok)).txns && HasTried(Apply(l, Attempt(t, ok)), t)
  {
    var l' := Apply(l, Attempt(t, ok));
    if ok {
      assert l'.reqs[|l.reqs|].owner == t;
    }
  }

  // A step that is no attempt leaves it open who has tried.
  lemma OthersHaveTried(l: Lane, s: Step, t: Tid)
    requires Enabled(l, s) && t in Apply(l, s).txns
    requires !(s.Attempt? && s.t == t && !l.txns[t].canceled)
    ensures t in l.txns ==> (HasTried(Apply(l, s), t) <==> HasTried(l, t))
    ensures t !in l.txns && HasTried(Apply(l, s), t) ==> exists i: Rid :: i < |l.reqs| && l.reqs[i].owner == t
  {
    hide Apply, Enabled, Noted, Recorded;
    RequestsGrow(l, s);
    NotedIsRecorded(l, s, t);
    if Noted(l, s) == Some((t, SendError)) {
      OnlySendsFail(l, s, t);
    }
    if i: Rid :| i < |l.reqs| && l.reqs[i].owner == t {
      assert Apply(l, s).reqs[i].owner == t;
    }
  }

  lemma OnlySendsFail(l: Lane, s: Step, t: Tid)
    requires Enabled(l, s) && Noted(l, s) == Some((t, SendError))
    ensures s.Attempt? && s.t == t && !l.txns[t].canceled
  {
    hide Completes;
  }

  lemma TryMembers(l: Lane, s: Step, a: Addr, isGet: bool)
    requires Ownership.Inv(l) && Enabled(l, s) && s.Attempt? && !l.txns[s.t].canceled
    ensures IsTried(Apply(l, s), a, isGet, s.t) <==> IsTried(l, a, isGet, s.t) || NewTry(l, s, a, isGet) == Some(s.t)
    ensures NewTry(l, s, a, isGet) == Some(s.t) ==> !IsTried(l, a, isGet, s.t)
  {
    TriesOnce(l, s.t);
    TryingHasTried(l, s.t, s.ok);
    CallStep(l, s);
    hide Enabled, Apply, HasTried, Ownership.Inv;
  }

  lemma OtherMembers(l: Lane, s: Step, a: Addr, isGet: bool, t: Tid)
    requires Ownership.Inv(l) && Enabled(l, s) && !(s.Attempt? && s.t == t && !l.txns[t].canceled)
    ensures IsTried(Apply(l, s), a, isGet, t) <==> IsTried(l, a, isGet, t)
    ensures NewTry(l, s, a, isGet) != Some(t)
  {
    hide Enabled, Apply, Noted, HasTried, Ownership.Inv;
    CallsStay(l, s);
    if t in Apply(l, s).txns {
      NotedIsRecorded(l, s, t);
      OthersHaveTried(l, s, t);
      Ownership.OwnersAreKnown(l);
    }
  }

  lemma TriedMembers(l: Lane, s: Step, a: Addr, isGet: bool, t: Tid)
    requires Ownership.Inv(l) && Enabled(l, s)
    ensures t in Tried(Apply(l, s), a, isGet) <==> t in Tried(l, a, isGet) || NewTry(l, s, a, isGet) == Some(t)
    ensures NewTry(l, s, a, isGet) == Some(t) ==> t !in Tried(l, a, isGet)
  {
    hide HasTried, Mine, NewTry, Ownership.Inv, Apply;
    if s.Attempt? && s.t == t && !l.txns[t].canceled {
      TryMembers(l, s, a, isGet);
    } else {
      OtherMembers(l, s, a, isGet, t);
    }
  }

  lemma TriedMoves(l: Lane, s: Step, a: Addr, isGet: bool)
    requires Ownership.Inv(l) && Enabled(l, s)
    ensures |Tried(Apply(l, s), a, isGet)| ==
      |Tried(l, a, isGet)| + if NewTry(l, s, a, isGet).Some? then 1 else 0
  {
    hide *;
    forall t
      ensures t in Tried(Apply(l, s), a, isGet) <==> t in Tried(l, a, isGet) || NewTry(l, s, a, isGet) == Some(t)
      ensures NewTry(l, s, a, isGet) == Some(t) ==> t !in Tried(l, a, isGet)
    {
      TriedMembers(l, s, a, isGet, t);
    }
    Sets.MaybeOneMore(Tried(l, a, isGet), Tried(Apply(l, s), a, isGet), NewTry(l, s, a, isGet));
  }

  lemma AttemptsStayBalanced(l: Lane, st: OpStats, s: Step, a: Addr, isGet: bool)
    requires Ownership.Inv(l) && Enabled(l, s) && AttemptsBalance(l, st, a, isGet)
    ensures AttemptsBalance(Apply(l, s), AttemptShare(l, st, s, a, isGet), a, isGet)
  {
    hide Ownership.Inv, Apply, Enabled, Tried, SendsFor;
    TriedMoves(l, s, a, isGet);
    SendsMove(l, s, a, isGet);
  }

  // The owner has tried and has recorded nothing yet.
  predicate Unrecorded(l: Lane, a: Addr, isGet: bool) {
    l.holder.Some? && l.holder.value in l.txns &&
    var txn := l.txns[l.holder.value];
    Mine(txn.call, a, isGet) && Recorded(txn.pc).None?
  }

  // The calls of one node and operation that have recorded some outcome.
  ghost function Finished(l: Lane, a: Addr, isGet: bool): set<Tid> {
    set t | t in l.txns && Mine(l.txns[t].call, a, isGet) && Recorded(l.txns[t].pc).Some?
  }

  lemma TriedIsFinished(l: Lane, a: Addr, isGet: bool, t: Tid)
    requires Ownership.Inv(l) && t in Tried(l, a, isGet)
    ensures t in Finished(l, a, isGet) || (Unrecorded(l, a, isGet) && l.holder == Some(t))
  {
    hide Ownership.Consecutive, Ownership.Turn;
    if i: Rid :| i < |l.reqs| && l.reqs[i].owner == t {
      SenderIsDone(l, i);
    }
  }

  lemma SenderIsDone(l: Lane, i: Rid)
    requires Ownership.Inv(l) && i < |l.reqs|
    ensures l.reqs[i].owner in l.txns && (l.txns[l.reqs[i].owner].pc.Done? || l.holder == Some(l.reqs[i].owner))
  {
    hide Ownership.Consecutive;
  }

  // Every call with an initial attempt ends in an outcome, sooner or later.
  lemma TriedWithinFinished(l: Lane, a: Addr, isGet: bool)
    requires Ownership.Inv(l)
    ensures |Tried(l, a, isGet)| <= |Finished(l, a, isGet)| + if Unrecorded(l, a, isGet) then 1 else 0
  {
    hide Ownership.Inv, Tried, Finished;
    var more := if Unrecorded(l, a, isGet) then {l.holder.value} else {};
    forall t | t in Tried(l, a, isGet) ensures t in Finished(l, a, isGet) + more {
      TriedIsFinished(l, a, isGet, t);
    }
    hide Unrecorded;
    Sets.SubsetSize(Tried(l, a, isGet), Finished(l, a, isGet) + more);
  }

  lemma FinishedOnce(l: Lane, a: Addr, isGet: bool, t: Tid)
    ensures t in Finished(l, a, isGet) <==> exists o: Outcome :: t in Tally(l, a, isGet, o)
    ensures forall o, p :: t in Tally(l, a, isGet, o) && t in Tally(l, a, isGet, p) ==> o == p
  {
    hide Recorded;
    if t in Finished(l, a, isGet) {
      assert t in Tally(l, a, isGet, Recorded(l.txns[t].pc).value);
    }
  }

  lemma OutcomesPartition(l: Lane, a: Addr, isGet: bool)
    ensures |Finished(l, a, isGet)| ==
      |Tally(l, a, isGet, SuccessFirst)| + |Tally(l, a, isGet, SuccessRetry)| + |Tally(l, a, isGet, TimedOut)|
      + |Tally(l, a, isGet, SendError)| + |Tally(l, a, isGet, Canceled)| + |Tally(l, a, isGet, NoRadio)|
  {
    hide Tally, Finished;
    var s1, s2, s3 := Tally(l, a, isGet, SuccessFirst), Tally(l, a, isGet, SuccessRetry), Tally(l, a, isGet, TimedOut);
    var s4, s5, s6 := Tally(l, a, isGet, SendError), Tally(l, a, isGet, Canceled), Tally(l, a, isGet, NoRadio);
    forall t
      ensures t in Finished(l, a, isGet) <==> t in s1 || t in s2 || t in s3 || t in s4 || t in s5 || t in s6
      ensures t in s2 ==> t !in s1
      ensures t in s3 ==> t !in s1 && t !in s2
      ensures t in s4 ==> t !in s1 && t !in s2 && t !in s3
      ensures t in s5 ==> t !in s1 && t !in s2 && t !in s3 && t !in s4
      ensures t in s6 ==> t !in s1 && t !in s2 && t !in s3 && t !in s4 && t !in s5
    {
      FinishedOnce(l, a, isGet, t);
    }
    Sets.SixParts(Finished(l, a, isGet), s1, s2, s3, s4, s5, s6);
  }

  function Total(outcomes: map<Outcome, nat>): nat
    requires outcomes.Keys == OUTCOMES
  {
    outcomes[SuccessFirst] + outcomes[SuccessRetry] + outcomes[TimedOut] + outcomes[SendError]
    + outcomes[Canceled] + outcomes[NoRadio]
  }

  // ---------- one node's packets, sends and latencies ----------

  // The identities between them, but for a latency that a matched reply still owes.
  ghost predicate Sheet(m: Metrics, owedByGet: nat, owedBySet: nat) {
    var p := m.packet;
    && PacketsBalance(p)
    && p.matchedValue == m.gets.latencyCount + owedByGet
    && p.matchedAck == m.sets.latencyCount + owedBySet
    && p.txError == m.gets.sendError + m.sets.sendError
    && p.txSuccess + p.txError == m.gets.initial + m.gets.retry + m.sets.initial + m.sets.retry
    && m.latencyCount == m.gets.latencyCount + m.sets.latencyCount
    && Cumulative(m.buckets, m.latencyCount)
  }

  // Each bucket holds the ones before it, and the last one everything.
  predicate Cumulative(buckets: seq<nat>, count: nat) {
    |buckets| == 8 && buckets[7] == count && forall i, j | 0 <= i < j < 8 :: buckets[i] <= buckets[j]
  }

  lemma BucketsStayCumulative(buckets: seq<nat>, count: nat, elapsed: int)
    requires Cumulative(buckets, count)
    ensures Cumulative(Bucketed(buckets, elapsed), count + 1)
  {
    assert forall i, j | 0 <= i < j < |BOUNDS| :: BOUNDS[i] <= BOUNDS[j];
  }

  lemma AttemptKeepsSheet(m: Ledger, call: Call, attempt: nat, ok: bool, a: Addr)
    requires a in m && Sheet(m[a], 0, 0)
    ensures a in AddAttempt(m, call, attempt, ok) && Sheet(AddAttempt(m, call, attempt, ok)[a], 0, 0)
  {
    hide Cumulative;
  }

  lemma TimeoutKeepsSheet(m: Ledger, call: Call, a: Addr)
    requires a in m && Sheet(m[a], 0, 0)
    ensures a in AddTimeout(m, call) && Sheet(AddTimeout(m, call)[a], 0, 0)
  {
    hide Cumulative;
  }

  lemma OutcomeKeepsSheet(m: Ledger, call: Call, o: Outcome, a: Addr, owedByGet: nat, owedBySet: nat)
    requires a in m && Sheet(m[a], owedByGet, owedBySet)
    ensures a in AddOutcome(m, call, o) && Sheet(AddOutcome(m, call, o)[a], owedByGet, owedBySet)
  {
    hide Cumulative;
  }

  lemma LatencyPaysSheet(m: Ledger, call: Call, elapsed: int, a: Addr)
    requires a in m && Sheet(m[a], if Mine(call, a, true) then 1 else 0, if Mine(call, a, false) then 1 else 0)
    ensures a in AddLatency(m, call, elapsed) && Sheet(AddLatency(m, call, elapsed)[a], 0, 0)
  {
    BucketsStayCumulative(m[a].buckets, m[a].latencyCount, elapsed);
    hide Cumulative, Bucketed;
  }

  lemma PacketOwesSheet(m: Ledger, reqs: seq<Req>, packet: Packet, call: Call, matched: bool, a: Addr)
    requires packet.Reply? ==> packet.rid < |reqs| && reqs[packet.rid].stage.Heard?
    requires matched ==> packet.Reply? && Matches(reqs[packet.rid].call, call)
    requires a in m && Sheet(m[a], 0, 0)
    ensures a in AddPacket(m, reqs, packet, matched)
    ensures Sheet(AddPacket(m, reqs, packet, matched)[a],
      if matched && Mine(call, a, true) then 1 else 0, if matched && Mine(call, a, false) then 1 else 0)
  {
    hide Cumulative;
  }

  lemma PacketIsCounted(l: Lane, m: Ledger, t: Tid)
    requires Enabled(l, WaitPacket(t))
    ensures var Txn(call, _, started, Waiting(r, _, _)) := l.txns[t];
      var counted := AddPacket(m, l.reqs, l.radios[r].received[0], Completes(l, t));
      Count(l, m, WaitPacket(t)) ==
        if Completes(l, t) then AddLatency(AddOutcome(counted, call, Completion(l, t).outcome), call, l.now - started)
        else counted
  {
    hide AddPacket, AddOutcome, AddLatency, Completes;
  }

  lemma SheetKeptByPacket(l: Lane, m: Ledger, t: Tid, a: Addr)
    requires Enabled(l, WaitPacket(t)) && a in m && Sheet(m[a], 0, 0)
    ensures a in Count(l, m, WaitPacket(t)) && Sheet(Count(l, m, WaitPacket(t))[a], 0, 0)
  {
    var call, matched := l.txns[t].call, Completes(l, t);
    var packet := l.radios[l.txns[t].pc.radio].received[0];
    assert matched ==> packet.Reply? && Matches(l.reqs[packet.rid].call, call);
    PacketIsCounted(l, m, t);
    hide Sheet, AddPacket, AddOutcome, AddLatency, Completes, Completion, Matches, Count, Mine;
    PacketOwesSheet(m, l.reqs, packet, call, matched, a);
    hide Enabled;
    if matched {
      var counted, o := AddPacket(m, l.reqs, packet, matched), Completion(l, t).outcome;
      var byGet, bySet := if Mine(call, a, true) then 1 else 0, if Mine(call, a, false) then 1 else 0;
      OutcomeKeepsSheet(counted, call, o, a, byGet, bySet);
      LatencyPaysSheet(AddOutcome(counted, call, o), call, l.now - l.txns[t].started, a);
    }
  }

  lemma SheetKeptByDrain(l: Lane, m: Ledger, t: Tid, a: Addr)
    requires Enabled(l, DrainPacket(t)) && a in m && Sheet(m[a], 0, 0)
    ensures a in Count(l, m, DrainPacket(t)) && Sheet(Count(l, m, DrainPacket(t))[a], 0, 0)
  {
    var packet := l.radios[l.txns[t].pc.radio].received[0];
    hide Sheet, AddPacket;
    PacketOwesSheet(m, l.reqs, packet, l.txns[t].call, false, a);
  }

  // Every other step counts an attempt or an expired wait, and an outcome, at most.
  lemma SheetKeptByOthers(l: Lane, m: Ledger, s: Step, a: Addr)
    requires Enabled(l, s) && !s.WaitPacket? && !s.DrainPacket? && a in m && Sheet(m[a], 0, 0)
    ensures a in Count(l, m, s) && Sheet(Count(l, m, s)[a], 0, 0)
  {
    hide Sheet, AddAttempt, AddTimeout, AddOutcome, Noted;
    if s.Attempt? {
      AttemptKeepsSheet(m, l.txns[s.t].call, l.txns[s.t].pc.attempt, s.ok, a);
    } else if s.WaitExpire? {
      TimeoutKeepsSheet(m, l.txns[s.t].call, a);
    }
    if Noted(l, s).Some? {
      CallsStay(l, s);
      var (t, o) := Noted(l, s).value;
      OutcomeKeepsSheet(CountAttempt(l, m, s), CallOf(l, s, t), o, a, 0, 0);
    }
  }

  lemma SheetKept(l: Lane, m: Ledger, s: Step, a: Addr)
    requires Enabled(l, s) && a in m && Sheet(m[a], 0, 0)
    ensures a in Count(l, m, s) && Sheet(Count(l, m, s)[a], 0, 0)
  {
    hide *;
    if s.WaitPacket? {
      SheetKeptByPacket(l, m, s.t, a);
    } else if s.DrainPacket? {
      SheetKeptByDrain(l, m, s.t, a);
    } else {
      SheetKeptByOthers(l, m, s, a);
    }
  }

  // ---------- the books of a run ----------

  ghost predicate OperationBalances(l: Lane, st: OpStats, a: Addr, isGet: bool) {
    && OutcomesBalance(l, st, a, isGet)
    && AttemptsBalance(l, st, a, isGet)
    && Paced(l, st, a, isGet)
  }

  ghost predicate Balanced(l: Lane, m: Ledger, a: Addr) {
    && a in m && Sheet(m[a], 0, 0)
    && OperationBalances(l, m[a].gets, a, true) && OperationBalances(l, m[a].sets, a, false)
  }

  lemma NothingYet(l: Lane, a: Addr, isGet: bool, o: Outcome)
    requires Initial(l)
    ensures Tally(l, a, isGet, o) == {} && Tried(l, a, isGet) == {} && SendsFor(l, a, isGet) == {}
  {
    hide Recorded;
  }

  // Nothing has been counted.
  predicate Untouched(st: OpStats) {
    && st.outcomes.Keys == OUTCOMES && (forall o | o in st.outcomes :: st.outcomes[o] == 0)
    && st.initial == 0 && st.retry == 0 && st.sendError == 0 && st.timeout == 0 && st.latencyCount == 0
  }

  predicate AllZero(m: Metrics) {
    var p := m.packet;
    && p.rxTotal == 0 && p.rxValid == 0 && p.badDecode == 0 && p.badType == 0 && p.nullValue == 0
    && p.matchedValue == 0 && p.orphanValue == 0 && p.matchedAck == 0 && p.orphanAck == 0
    && p.txSuccess == 0 && p.txError == 0 && m.latencyCount == 0
    && |m.buckets| == 8 && (forall i | 0 <= i < 8 :: m.buckets[i] == 0)
    && Untouched(m.gets) && Untouched(m.sets)
  }

  lemma NothingCounted(m: Metrics)
    requires m == NewMetrics()
    ensures AllZero(m)
  {
    assert forall i | 0 <= i < 8 :: m.buckets[i] == 0;
  }

  lemma OpeningBalance(l: Lane, st: OpStats, a: Addr, isGet: bool)
    requires Initial(l) && Untouched(st)
    ensures OperationBalances(l, st, a, isGet)
  {
    hide Tally, Tried, SendsFor;
    forall o | o in OUTCOMES ensures st.outcomes[o] == |Tally(l, a, isGet, o)| {
      NothingYet(l, a, isGet, o);
    }
    NothingYet(l, a, isGet, NoRadio);
  }

  lemma OpeningBuckets(buckets: seq<nat>, count: nat)
    requires count == 0 && |buckets| == 8 && forall i | 0 <= i < 8 :: buckets[i] == 0
    ensures Cumulative(buckets, count)
  {
  }

  lemma OpeningPackets(p: PacketStats)
    requires p.rxTotal == 0 && p.rxValid == 0 && p.badDecode == 0 && p.badType == 0 && p.nullValue == 0
    requires p.matchedValue == 0 && p.orphanValue == 0 && p.matchedAck == 0 && p.orphanAck == 0
    ensures PacketsBalance(p)
  {
  }

  lemma OpeningSheet(m: Metrics)
    requires AllZero(m)
    ensures Sheet(m, 0, 0)
  {
    hide Cumulative, PacketsBalance;
    OpeningBuckets(m.buckets, m.latencyCount);
    OpeningPackets(m.packet);
  }

  lemma OperationStaysBalanced(l: Lane, st: OpStats, s: Step, a: Addr, isGet: bool)
    requires Ownership.Inv(l) && Enabled(l, s) && OperationBalances(l, st, a, isGet)
    ensures OperationBalances(Apply(l, s), StatsAfter(l, st, s, a, isGet), a, isGet)
  {
    hide Ownership.Inv, Apply, Enabled, AttemptShare, OutcomeShare;
    var tried := AttemptShare(l, st, s, a, isGet);
    OutcomesStayBalanced(l, st, s, a, isGet);
    AttemptsStayBalanced(l, st, s, a, isGet);
    PacedKept(l, st, s, a, isGet);
    AttemptsLeaveOutcomes(l, st, s, a, isGet);
    OutcomesMove(tried, Mark(l, s, a, isGet), s.WaitPacket?);
    PacedIgnoresOutcomes(Apply(l, s), tried, StatsAfter(l, st, s, a, isGet), a, isGet);
    hide OutcomesBalance, Paced, Tried, SendsFor;
  }

  lemma BalanceKept(l: Lane, m: Ledger, s: Step, a: Addr)
    requires Ownership.Inv(l) && Enabled(l, s) && Balanced(l, m, a)
    ensures Balanced(Apply(l, s), Count(l, m, s), a)
  {
    hide Ownership.Inv, Apply, Enabled, Count, Sheet, OperationBalances, StatsAfter;
    CountIsPerOperation(l, m, s, a, true);
    CountIsPerOperation(l, m, s, a, false);
    SheetKept(l, m, s, a);
    OperationStaysBalanced(l, m[a].gets, s, a, true);
    OperationStaysBalanced(l, m[a].sets, s, a, false);
  }

  lemma OpeningBooks(l: Lane, m: Ledger, a: Addr)
    requires Initial(l) && a in m && AllZero(m[a])
    ensures Balanced(l, m, a)
  {
    hide Sheet, OperationBalances, Initial, Untouched;
    OpeningSheet(m[a]);
    OpeningBalance(l, m[a].gets, a, true);
    OpeningBalance(l, m[a].sets, a, false);
  }

  // Between any two steps of a run the counters balance: outcomes count calls, attempts
  // count sends and failed sends, and packets, latencies and buckets add up.
  lemma {:induction false} BooksAlwaysBalance(run: Run, a: Addr)
    requires run.Valid() && a in LedgerOf(run)
    ensures Balanced(run.Last(), LedgerOf(run), a)
  {
    if run.First? {
      NothingCounted(LedgerOf(run)[a]);
      hide Initial, Balanced, NewMetrics, AllZero;
      OpeningBooks(run.start, LedgerOf(run), a);
    } else {
      hide Count, Apply, Enabled, Balanced, Ownership.Inv, NewMetrics;
      KeysStay(run.run.Last(), LedgerOf(run.run), run.step);
      BooksAlwaysBalance(run.run, a);
      Ownership.Reachable(run.run);
      BalanceKept(run.run.Last(), LedgerOf(run.run), run.step, a);
    }
  }

  // A node's sends that succeeded are its requests, its failed sends are the calls that
  // ended in a send error, and its attempts are both together, in every state between
  // two steps.
  lemma SendsAreCounted(run: Run, a: Addr)
    requires run.Valid() && a in LedgerOf(run)
    ensures var l, m := run.Last(), LedgerOf(run)[a];
      && m.packet.txSuccess == |SendsFor(l, a, true)| + |SendsFor(l, a, false)|
      && m.packet.txError == |Tally(l, a, true, SendError)| + |Tally(l, a, false, SendError)|
      && forall isGet: bool ::
           && m.Of(isGet).initial == |Tried(l, a, isGet)|
           && m.Of(isGet).initial + m.Of(isGet).retry ==
                |SendsFor(l, a, isGet)| + |Tally(l, a, isGet, SendError)|
  {
    hide run.Valid, run.Last, LedgerOf, Tally, Tried, SendsFor, Paced;
    BooksAlwaysBalance(run, a);
    assert SendError in OUTCOMES;
  }

  // At rest the published identities hold: every call of a known node that has ended
  // added exactly one outcome, and the other counters follow from the outcomes.
  lemma AtRest(run: Run, a: Addr, isGet: bool)
    requires run.Valid() && a in LedgerOf(run) && run.Last().holder.None?
    ensures var l, m := run.Last(), LedgerOf(run)[a];
      var st := m.Of(isGet);
      && st.outcomes.Keys == OUTCOMES
      && Total(st.outcomes) == |Finished(l, a, isGet)|
      && Total(st.outcomes) ==
           |set t | t in l.txns && l.txns[t].call.addr == a && l.txns[t].call.op.Get? == isGet && l.txns[t].pc.Done?|
      && st.latencyCount == st.outcomes[SuccessFirst] + st.outcomes[SuccessRetry]
      && st.sendError == st.outcomes[SendError]
      && st.initial <= Total(st.outcomes)
      && st.retry <= st.timeout && st.retry <= l.retries * st.initial
      && m.packet.matchedValue == m.gets.latencyCount && m.packet.matchedAck == m.sets.latencyCount
      && Cumulative(m.buckets, m.gets.latencyCount + m.sets.latencyCount)
  {
    hide run.Valid, run.Last, LedgerOf, Ownership.Inv, Tally, Finished, Tried, SendsFor, Cumulative;
    BooksAlwaysBalance(run, a);
    OutcomesPartition(run.Last(), a, isGet);
    Ownership.Reachable(run);
    TriedWithinFinished(run.Last(), a, isGet);
    FinishedAreDone(run.Last(), a, isGet);
  }

  // At rest only calls that have ended have recorded anything.
  lemma FinishedAreDone(l: Lane, a: Addr, isGet: bool)
    requires Ownership.Inv(l) && l.holder.None?
    ensures Finished(l, a, isGet) ==
      set t | t in l.txns && l.txns[t].call.addr == a && l.txns[t].call.op.Get? == isGet && l.txns[t].pc.Done?
  {
    hide Ownership.Consecutive, Ownership.Turn;
    forall t | t in l.txns ensures Recorded(l.txns[t].pc).Some? <==> l.txns[t].pc.Done? {
      assert !l.txns[t].pc.Owning();
    }
  }

  // ---------- packets and expired waits ----------

  // The packet a step takes from a radio.
  function Read(l: Lane, s: Step): Option<Packet>
    requires Enabled(l, s)
  {
    if s.WaitPacket? || s.DrainPacket? then Some(l.radios[l.txns[s.t].pc.radio].received[0]) else None
  }

  predicate ReadsFrom(l: Lane, s: Step, a: Addr)
    requires Enabled(l, s)
  {
    match Read(l, s)
    case None => false
    case Some(Noise(src, _)) => src == a
    case Some(Reply(rid)) => rid < |l.reqs| && l.reqs[rid].call.addr == a
  }

  // A packet is one of those that a counter counts.
  predicate Shows(reqs: seq<Req>, packet: Packet, matched: bool, c: Counter)
    requires packet.Reply? ==> packet.rid < |reqs| && reqs[packet.rid].stage.Heard?
  {
    var isValue := packet.Reply? && reqs[packet.rid].call.op.Get?;
    match c
    case RxTotal => true
    case RxValid => packet.Reply?
    case InvalidDecode => packet.Noise? && packet.junk.BadVersion?
    case InvalidType => packet.Noise? && packet.junk.BadType?
    case MatchedValue => isValue && matched
    case OrphanValue => isValue && !matched
    case NullValue => isValue && reqs[packet.rid].stage.update.isNull
    case MatchedAck => packet.Reply? && !isValue && matched
    case OrphanAck => packet.Reply? && !isValue && !matched
  }

  // A call reads such a packet from this node's address in this step.
  predicate ReadsSuch(l: Lane, s: Step, a: Addr, c: Counter)
    requires Enabled(l, s)
  {
    ReadsFrom(l, s, a) && Shows(l.reqs, Read(l, s).value, s.WaitPacket? && Completes(l, s.t), c)
  }

  // The packets of this kind that calls have read from a node's address.
  ghost function Packets(run: Run, a: Addr, c: Counter): nat
    requires run.Valid()
  {
    if run.First? then 0
    else
      var l, s := run.run.Last(), run.step;
      Packets(run.run, a, c) + if ReadsSuch(l, s, a, c) then 1 else 0
  }

  // The waits for a reply that have expired.
  ghost function Expiries(run: Run, a: Addr, isGet: bool): nat
    requires run.Valid()
  {
    if run.First? then 0
    else
      var l, s := run.run.Last(), run.step;
      Expiries(run.run, a, isGet) + if s.WaitExpire? && Mine(l.txns[s.t].call, a, isGet) then 1 else 0
  }

  lemma InspectingIsCounted(p: PacketStats, reqs: seq<Req>, packet: Packet, matched: bool, c: Counter)
    requires packet.Reply? ==> packet.rid < |reqs| && reqs[packet.rid].stage.Heard?
    ensures CounterOf(Inspected(p, reqs, packet, matched), c) ==
      CounterOf(p, c) + if Shows(reqs, packet, matched, c) then 1 else 0
  {
  }

  lemma ReadingIsCounted(l: Lane, m: Ledger, s: Step, a: Addr, c: Counter)
    requires Enabled(l, s) && a in m
    ensures a in CountPacket(l, m, s)
    ensures CounterOf(CountPacket(l, m, s)[a].packet, c) ==
      CounterOf(m[a].packet, c) + if ReadsSuch(l, s, a, c) then 1 else 0
  {
    hide Completes, Inspected, Shows, CounterOf;
    if ReadsFrom(l, s, a) {
      InspectingIsCounted(m[a].packet, l.reqs, Read(l, s).value, s.WaitPacket? && Completes(l, s.t), c);
    }
  }

  predicate SameReads(p: PacketStats, q: PacketStats) {
    p.(txSuccess := q.txSuccess, txError := q.txError) == q
  }

  lemma OthersReadNothing(l: Lane, m: Ledger, s: Step, a: Addr)
    requires Enabled(l, s) && a in m
    ensures a in CountAttempt(l, m, s) && SameReads(CountAttempt(l, m, s)[a].packet, m[a].packet)
    ensures a in CountOutcome(l, m, s) && SameReads(CountOutcome(l, m, s)[a].packet, m[a].packet)
  {
    hide Noted, CallOf, Bump, Bucketed;
  }

  lemma ReadsOfStep(l: Lane, m: Ledger, s: Step, a: Addr, c: Counter)
    requires Enabled(l, s) && a in m
    ensures a in Count(l, m, s)
    ensures CounterOf(Count(l, m, s)[a].packet, c) ==
      CounterOf(m[a].packet, c) + if ReadsSuch(l, s, a, c) then 1 else 0
  {
    hide Enabled, CountPacket, CountAttempt, CountOutcome, ReadsSuch;
    ReadingIsCounted(l, m, s, a, c);
    OthersReadNothing(l, CountPacket(l, m, s), s, a);
    OthersReadNothing(l, CountAttempt(l, CountPacket(l, m, s), s), s, a);
  }

  // Every packet read from a known node is counted once, and again by each counter for
  // its kind: valid or not, VALUE or ACK, matched or orphan, NULL.
  lemma {:induction false} ReadsAreCounted(run: Run, a: Addr, c: Counter)
    requires run.Valid() && a in LedgerOf(run)
    ensures CounterOf(LedgerOf(run)[a].packet, c) == Packets(run, a, c)
  {
    if run.Then? {
      hide Apply, Enabled, Count, ReadsSuch, CounterOf;
      KeysStay(run.run.Last(), LedgerOf(run.run), run.step);
      ReadsAreCounted(run.run, a, c);
      ReadsOfStep(run.run.Last(), LedgerOf(run.run), run.step, a, c);
    }
  }

  lemma ExpiryOfStep(l: Lane, m: Ledger, s: Step, a: Addr, isGet: bool)
    requires Enabled(l, s) && a in m
    ensures a in Count(l, m, s)
    ensures Count(l, m, s)[a].Of(isGet).timeout ==
      m[a].Of(isGet).timeout + if s.WaitExpire? && Mine(l.txns[s.t].call, a, isGet) then 1 else 0
  {
    CountIsPerOperation(l, m, s, a, isGet);
    hide Count, Mark, Bump;
  }

  // Every expired wait of a known node's calls is counted once.
  lemma {:induction false} ExpiriesAreCounted(run: Run, a: Addr, isGet: bool)
    requires run.Valid() && a in LedgerOf(run)
    ensures LedgerOf(run)[a].Of(isGet).timeout == Expiries(run, a, isGet)
  {
    if run.Then? {
      hide Apply, Count, Mine;
      KeysStay(run.run.Last(), LedgerOf(run.run), run.step);
      ExpiriesAreCounted(run.run, a, isGet);
      ExpiryOfStep(run.run.Last(), LedgerOf(run.run), run.step, a, isGet);
    }
  }

  // ---------- latencies ----------

  // The published upper bounds, in nanoseconds.
  lemma LatencyBounds()
    ensures BOUNDS == [25_000_000, 50_000_000, 100_000_000, 200_000_000, 500_000_000, 1_000_000_000, 2_000_000_000]
  {
  }

  // A call to this node succeeds in this step, within the bound of this bucket.
  predicate SucceedsWithin(l: Lane, s: Step, a: Addr, bucket: nat)
    requires Enabled(l, s)
  {
    s.WaitPacket? && Completes(l, s.t) && l.txns[s.t].call.addr == a &&
    (bucket < |BOUNDS| ==> l.now - l.txns[s.t].started <= BOUNDS[bucket])
  }

  ghost function Successes(run: Run, a: Addr, bucket: nat): nat
    requires run.Valid()
  {
    if run.First? then 0
    else Successes(run.run, a, bucket) + if SucceedsWithin(run.run.Last(), run.step, a, bucket) then 1 else 0
  }

  predicate SameBuckets(m: Ledger, m': Ledger, a: Addr) {
    a in m && a in m' && m'[a].buckets == m[a].buckets
  }

  lemma OutcomeLeavesBuckets(m: Ledger, call: Call, o: Outcome, a: Addr)
    requires a in m
    ensures SameBuckets(m, AddOutcome(m, call, o), a)
  {
    hide Bump;
  }

  lemma PacketLeavesBuckets(l: Lane, m: Ledger, s: Step, a: Addr)
    requires Enabled(l, s) && a in m
    ensures SameBuckets(m, CountPacket(l, m, s), a)
  {
    hide Inspected, Completes, Source;
  }

  lemma AttemptLeavesBuckets(l: Lane, m: Ledger, s: Step, a: Addr)
    requires Enabled(l, s) && a in m
    ensures SameBuckets(m, CountAttempt(l, m, s), a)
  {
  }

  lemma BucketsOfOutcome(l: Lane, m: Ledger, s: Step, a: Addr, bucket: nat)
    requires Enabled(l, s) && a in m && bucket < 8 && |m[a].buckets| == 8
    ensures a in CountOutcome(l, m, s) && |CountOutcome(l, m, s)[a].buckets| == 8
    ensures CountOutcome(l, m, s)[a].buckets[bucket] ==
      m[a].buckets[bucket] + if SucceedsWithin(l, s, a, bucket) then 1 else 0
  {
    hide AddOutcome;
    if Noted(l, s).Some? {
      var (t, o) := Noted(l, s).value;
      OutcomeLeavesBuckets(m, CallOf(l, s, t), o, a);
    }
  }

  lemma BucketsOfStep(l: Lane, m: Ledger, s: Step, a: Addr, bucket: nat)
    requires Enabled(l, s) && a in m && bucket < 8 && |m[a].buckets| == 8
    ensures a in Count(l, m, s) && |Count(l, m, s)[a].buckets| == 8
    ensures Count(l, m, s)[a].buckets[bucket] ==
      m[a].buckets[bucket] + if SucceedsWithin(l, s, a, bucket) then 1 else 0
  {
    hide Enabled, CountPacket, CountAttempt, CountOutcome, SucceedsWithin;
    PacketLeavesBuckets(l, m, s, a);
    AttemptLeavesBuckets(l, CountPacket(l, m, s), s, a);
    BucketsOfOutcome(l, CountAttempt(l, CountPacket(l, m, s), s), s, a, bucket);
  }

  // Each bucket counts the node's successes within its bound, the last one all of them.
  lemma {:induction false} LatenciesAreCounted(run: Run, a: Addr, bucket: nat)
    requires run.Valid() && a in LedgerOf(run) && bucket < 8
    ensures |LedgerOf(run)[a].buckets| == 8 && LedgerOf(run)[a].buckets[bucket] == Successes(run, a, bucket)
  {
    if run.Then? {
      hide Apply, Enabled, Count, SucceedsWithin;
      KeysStay(run.run.Last(), LedgerOf(run.run), run.step);
      LatenciesAreCounted(run.run, a, bucket);
      BucketsOfStep(run.run.Last(), LedgerOf(run.run), run.step, a, bucket);
    }
  }
}
