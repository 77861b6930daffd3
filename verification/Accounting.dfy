/** The counters of lib/site/engine/metrics.go beside the lane: what each step counts, and
    that every call records its outcome exactly once. */
module Accounting {
  import opened Channel
  import opened Options
  import opened Turnaround
  import Sets

  datatype OpStats = OpStats(outcomes: map<Outcome, nat>, initial: nat, retry: nat, sendError: nat,
                             timeout: nat, latencyCount: nat)

  datatype PacketStats = PacketStats(rxTotal: nat, rxValid: nat, matchedValue: nat, orphanValue: nat,
                                     matchedAck: nat, orphanAck: nat, nullValue: nat, badDecode: nat,
                                     badType: nat, txSuccess: nat, txError: nat)

  datatype Metrics = Metrics(gets: OpStats, sets: OpStats, latencyCount: nat, buckets: seq<nat>, packet: PacketStats) {
    function Of(isGet: bool): OpStats { if isGet then gets else sets }

    function With(isGet: bool, s: OpStats): Metrics {
      if isGet then this.(gets := s) else this.(sets := s)
    }
  }

  // The counters that inspectPacket increments.
  datatype Counter =
    | RxTotal | RxValid | MatchedValue | OrphanValue | MatchedAck | OrphanAck | NullValue | InvalidDecode | InvalidType

  function CounterOf(p: PacketStats, c: Counter): nat {
    match c
    case RxTotal => p.rxTotal
    case RxValid => p.rxValid
    case MatchedValue => p.matchedValue
    case OrphanValue => p.orphanValue
    case MatchedAck => p.matchedAck
    case OrphanAck => p.orphanAck
    case NullValue => p.nullValue
    case InvalidDecode => p.badDecode
    case InvalidType => p.badType
  }

  const OUTCOMES := {SuccessFirst, SuccessRetry, TimedOut, SendError, Canceled, NoRadio}
  const NO_OUTCOMES: map<Outcome, nat> :=
    map[SuccessFirst := 0, SuccessRetry := 0, TimedOut := 0, SendError := 0, Canceled := 0, NoRadio := 0]
  const NO_STATS := OpStats(NO_OUTCOMES, 0, 0, 0, 0, 0)
  const NO_PACKETS := PacketStats(0, 0, 0, 0, 0, 0, 0, 0, 0, 0, 0)

  // The counters of a node that has just been added.
  function NewMetrics(): Metrics {
    Metrics(NO_STATS, NO_STATS, 0, [0, 0, 0, 0, 0, 0, 0, 0], NO_PACKETS)
  }

  // The identities between the packet counters.
  predicate PacketsBalance(p: PacketStats) {
    && p.rxTotal == p.rxValid + p.badDecode + p.badType
    && p.rxValid == p.matchedValue + p.orphanValue + p.matchedAck + p.orphanAck
    && p.nullValue <= p.matchedValue + p.orphanValue
  }

  type Ledger = map<Addr, Metrics>

  // ---------- what a step counts ----------

  function Bump(s: OpStats, o: Outcome): OpStats {
    s.(outcomes := s.outcomes[o := (if o in s.outcomes then s.outcomes[o] else 0) + 1])
  }

  // The upper bounds of the seven finite latency buckets; the eighth has none.
  const BOUNDS: seq<int> := [25 * MILLISECOND, 50 * MILLISECOND, 100 * MILLISECOND, 200 * MILLISECOND,
                             500 * MILLISECOND, 1000 * MILLISECOND, 2000 * MILLISECOND]

  function Bucketed(buckets: seq<nat>, elapsed: int): seq<nat> {
    seq(|buckets|, i requires 0 <= i < |buckets| =>
      if i >= |BOUNDS| || elapsed <= BOUNDS[i] then buckets[i] + 1 else buckets[i])
  }

  function Timed(m: Metrics, isGet: bool, elapsed: int): Metrics {
    var s := m.Of(isGet);
    m.With(isGet, s.(latencyCount := s.latencyCount + 1))
      .(latencyCount := m.latencyCount + 1, buckets := Bucketed(m.buckets, elapsed))
  }

  // The outcome a call records in this step, if any.
  function Noted(l: Lane, s: Step): Option<(Tid, Outcome)>
    requires Enabled(l, s)
  {
    match s
    case Start(t, call, canceled) =>
      if call.addr !in l.known then None
      else if l.radio.None? then Some((t, NoRadio))
      else if canceled then Some((t, Canceled)) else None
    case LeaveQueue(t) => Some((t, Canceled))
    case Begin(t) => if l.txns[t].canceled then Some((t, Canceled)) else None
    case Attempt(t, ok) =>
      if l.txns[t].canceled then (if l.txns[t].pc.sent then None else Some((t, Canceled)))
      else if ok then None else Some((t, SendError))
    case WaitPacket(t) => if Completes(l, t) then Some((t, Completion(l, t).outcome)) else None
    case DrainEnd(t) =>
      if l.txns[t].pc.after.Return? then None
      else if l.txns[t].pc.after.ReturnCanceled? || l.txns[t].canceled then Some((t, Canceled))
      else Some((t, TimedOut))
    case _ => None
  }

  function CallOf(l: Lane, s: Step, t: Tid): Call
    requires s.Start? || t in l.txns
  {
    if s.Start? then s.call else l.txns[t].call
  }

  function AddOutcome(m: Ledger, call: Call, o: Outcome): Ledger {
    if call.addr !in m then m
    else m[call.addr := m[call.addr].With(call.op.Get?, Bump(m[call.addr].Of(call.op.Get?), o))]
  }

  function AddLatency(m: Ledger, call: Call, elapsed: int): Ledger {
    if call.addr !in m then m else m[call.addr := Timed(m[call.addr], call.op.Get?, elapsed)]
  }

  function AddAttempt(m: Ledger, call: Call, attempt: nat, ok: bool): Ledger {
    if call.addr !in m then m else m[call.addr := Attempted(m[call.addr], call.op.Get?, attempt, ok)]
  }

  function AddTimeout(m: Ledger, call: Call): Ledger {
    if call.addr !in m then m
    else
      var st := m[call.addr].Of(call.op.Get?);
      m[call.addr := m[call.addr].With(call.op.Get?, st.(timeout := st.timeout + 1))]
  }

  // A packet whose source was never added is dropped without a trace.
  function AddPacket(m: Ledger, reqs: seq<Req>, packet: Packet, matched: bool): Ledger
    requires packet.Reply? ==> packet.rid < |reqs| && reqs[packet.rid].stage.Heard?
  {
    var a := Source(reqs, packet);
    if a !in m then m else m[a := m[a].(packet := Inspected(m[a].packet, reqs, packet, matched))]
  }

  function CountOutcome(l: Lane, m: Ledger, s: Step): Ledger
    requires Enabled(l, s)
  {
    match Noted(l, s)
    case None => m
    case Some((t, o)) =>
      var call := CallOf(l, s, t);
      if s.WaitPacket? then AddLatency(AddOutcome(m, call, o), call, l.now - l.txns[t].started)
      else AddOutcome(m, call, o)
  }

  function Attempted(m: Metrics, isGet: bool, attempt: nat, ok: bool): Metrics {
    var st := m.Of(isGet);
    var st := if attempt == 0 then st.(initial := st.initial + 1) else st.(retry := st.retry + 1);
    var st := if ok then st else st.(sendError := st.sendError + 1);
    var p := if ok then m.packet.(txSuccess := m.packet.txSuccess + 1)
             else m.packet.(txError := m.packet.txError + 1);
    m.With(isGet, st).(packet := p)
  }

  // Attempts, expired waits, and sends.
  function CountAttempt(l: Lane, m: Ledger, s: Step): Ledger
    requires Enabled(l, s)
  {
    if s.Attempt? && !l.txns[s.t].canceled then AddAttempt(m, l.txns[s.t].call, l.txns[s.t].pc.attempt, s.ok)
    else if s.WaitExpire? then AddTimeout(m, l.txns[s.t].call)
    else m
  }

  // What inspectPacket counts for a packet from a known source.
  function Inspected(p: PacketStats, reqs: seq<Req>, packet: Packet, matched: bool): PacketStats
    requires packet.Reply? ==> packet.rid < |reqs| && reqs[packet.rid].stage.Heard?
  {
    var p := p.(rxTotal := p.rxTotal + 1);
    match packet
    case Noise(_, BadVersion) => p.(badDecode := p.badDecode + 1)
    case Noise(_, BadType) => p.(badType := p.badType + 1)
    case Reply(rid) =>
      var p := p.(rxValid := p.rxValid + 1);
      if reqs[rid].call.op.Get? then
        var p := if reqs[rid].stage.update.isNull then p.(nullValue := p.nullValue + 1) else p;
        if matched then p.(matchedValue := p.matchedValue + 1) else p.(orphanValue := p.orphanValue + 1)
      else if matched then p.(matchedAck := p.matchedAck + 1) else p.(orphanAck := p.orphanAck + 1)
  }

  function Source(reqs: seq<Req>, packet: Packet): Addr
    requires packet.Reply? ==> packet.rid < |reqs|
  {
    if packet.Reply? then reqs[packet.rid].call.addr else packet.src
  }

  function CountPacket(l: Lane, m: Ledger, s: Step): Ledger
    requires Enabled(l, s)
  {
    if s.WaitPacket? || s.DrainPacket? then
      AddPacket(m, l.reqs, l.radios[l.txns[s.t].pc.radio].received[0], s.WaitPacket? && Completes(l, s.t))
    else m
  }

  function Count(l: Lane, m: Ledger, s: Step): Ledger
    requires Enabled(l, s)
  {
    CountOutcome(l, CountAttempt(l, CountPacket(l, m, s), s), s)
  }

  // ---------- outcomes are recorded once for each call ----------

  function Recorded(pc: Pc): Option<Outcome> {
    match pc
    case Done(result) => Some(result.outcome)
    case Draining(_, _, Return(result)) => Some(result.outcome)
    case _ => None
  }

  // The calls for a node that have recorded an outcome.
  ghost function Tally(l: Lane, a: Addr, isGet: bool, o: Outcome): set<Tid> {
    set t | t in l.txns && Counts(l.txns[t], a, isGet, o)
  }

  // A call to this node, a GET or not.
  predicate Mine(call: Call, a: Addr, isGet: bool) {
    call.addr == a && call.op.Get? == isGet
  }

  predicate Counts(txn: Txn, a: Addr, isGet: bool, o: Outcome) {
    Mine(txn.call, a, isGet) && Recorded(txn.pc) == Some(o)
  }

  // Only the call that moves records anything.
  lemma NoterMoves(l: Lane, s: Step)
    requires Enabled(l, s) && Noted(l, s).Some?
    ensures OfCall(s) && Noted(l, s).value.0 == s.t
  {
    hide Completion;
  }

  lemma QueueRecords(l: Lane, s: Step)
    requires Enabled(l, s) && (s.Start? || s.LeaveQueue? || s.TakeGate? || s.Begin?)
    ensures s.t in Apply(l, s).txns
    ensures Recorded(Apply(l, s).txns[s.t].pc) == (if Noted(l, s).Some? then Some(Noted(l, s).value.1) else None)
    ensures s.t in l.txns ==> Recorded(l.txns[s.t].pc).None?
  {
  }

  lemma AttemptRecords(l: Lane, s: Step)
    requires Enabled(l, s) && s.Attempt?
    ensures s.t in Apply(l, s).txns && Recorded(l.txns[s.t].pc).None?
    ensures Recorded(Apply(l, s).txns[s.t].pc) == (if Noted(l, s).Some? then Some(Noted(l, s).value.1) else None)
  {
  }

  lemma WaitRecords(l: Lane, s: Step)
    requires Enabled(l, s) && (s.WaitPacket? || s.WaitCancel? || s.WaitExpire?)
    ensures s.t in Apply(l, s).txns && Recorded(l.txns[s.t].pc).None?
    ensures Recorded(Apply(l, s).txns[s.t].pc) == (if Noted(l, s).Some? then Some(Noted(l, s).value.1) else None)
  {
  }

  lemma DrainRecords(l: Lane, s: Step)
    requires Enabled(l, s) && (s.DrainPacket? || s.DrainEnd?)
    ensures s.t in Apply(l, s).txns
    ensures Noted(l, s).Some? ==> Recorded(l.txns[s.t].pc).None?
    ensures Recorded(Apply(l, s).txns[s.t].pc) ==
      (if Noted(l, s).Some? then Some(Noted(l, s).value.1) else Recorded(l.txns[s.t].pc))
  {
  }

  lemma MoverRecords(l: Lane, s: Step)
    requires Enabled(l, s) && OfCall(s)
    ensures s.t in Apply(l, s).txns
    ensures var n := Noted(l, s);
      && (n.Some? ==> s.t !in l.txns || Recorded(l.txns[s.t].pc).None?)
      && Recorded(Apply(l, s).txns[s.t].pc) ==
           if n.Some? then Some(n.value.1) else if s.t in l.txns then Recorded(l.txns[s.t].pc) else None
  {
    hide Apply, Recorded, Noted;
    if s.Attempt? {
      AttemptRecords(l, s);
    } else if s.DrainPacket? || s.DrainEnd? {
      DrainRecords(l, s);
    } else if s.WaitPacket? || s.WaitCancel? || s.WaitExpire? {
      WaitRecords(l, s);
    } else {
      QueueRecords(l, s);
    }
  }

  // A step that is not its own leaves a call alone, but for a cancellation.
  lemma OthersStay(l: Lane, s: Step, t: Tid)
    requires Enabled(l, s) && t in Apply(l, s).txns && !(OfCall(s) && s.t == t)
    ensures t in l.txns && Apply(l, s).txns[t].pc == l.txns[t].pc && Apply(l, s).txns[t].call == l.txns[t].call
  {
    if OfCall(s) {
      CallStep(l, s);
      hide Apply, Enabled;
    } else if Outside(s) {
      OutsideStep(l, s);
      hide Apply, Enabled;
    }
  }

  // A step records for at most one call, which had recorded nothing before, and
  // changes no other record.
  lemma NotedIsRecorded(l: Lane, s: Step, t: Tid)
    requires Enabled(l, s) && t in Apply(l, s).txns
    ensures var n, l' := Noted(l, s), Apply(l, s);
      && (n.Some? && n.value.0 == t ==> Recorded(l'.txns[t].pc) == Some(n.value.1) && l'.txns[t].call == CallOf(l, s, t)
                                        && (t in l.txns ==> Recorded(l.txns[t].pc).None?))
      && (!(n.Some? && n.value.0 == t) && t in l.txns ==> Recorded(l'.txns[t].pc) == Recorded(l.txns[t].pc))
      && (!(n.Some? && n.value.0 == t) && t !in l.txns ==> Recorded(l'.txns[t].pc).None?)
      && (t in l.txns ==> l'.txns[t].call == l.txns[t].call)
  {
    if Noted(l, s).Some? {
      NoterMoves(l, s);
    }
    if OfCall(s) && s.t == t {
      MoverRecords(l, s);
      CallStep(l, s);
    } else {
      OthersStay(l, s, t);
    }
    hide Apply, Enabled, Noted, Recorded;
  }

  // The outcome a step records for this node and operation, if any.
  function Mark(l: Lane, s: Step, a: Addr, isGet: bool): Option<Outcome>
    requires Enabled(l, s)
  {
    match Noted(l, s)
    case Some((t, o)) => if Mine(CallOf(l, s, t), a, isGet) then Some(o) else None
    case None => None
  }

  // The call it records it for.
  function Hitter(l: Lane, s: Step, a: Addr, isGet: bool, o: Outcome): Option<Tid>
    requires Enabled(l, s)
  {
    if Mark(l, s, a, isGet) == Some(o) then Some(Noted(l, s).value.0) else None
  }

  lemma HitterCounts(l: Lane, s: Step, a: Addr, isGet: bool, o: Outcome, t: Tid)
    requires Enabled(l, s) && Hitter(l, s, a, isGet, o) == Some(t)
    ensures t in Apply(l, s).txns && Counts(Apply(l, s).txns[t], a, isGet, o)
    ensures t in l.txns ==> !Counts(l.txns[t], a, isGet, o)
  {
    hide Apply, Enabled, Noted, Recorded, Mine;
    CallsStay(l, s);
    NotedIsRecorded(l, s, t);
  }

  lemma OthersCountAsBefore(l: Lane, s: Step, a: Addr, isGet: bool, o: Outcome, t: Tid)
    requires Enabled(l, s) && t in Apply(l, s).txns && Hitter(l, s, a, isGet, o) != Some(t)
    ensures Counts(Apply(l, s).txns[t], a, isGet, o) <==> t in l.txns && Counts(l.txns[t], a, isGet, o)
  {
    hide Apply, Enabled, Noted, Recorded, Mine;
    NotedIsRecorded(l, s, t);
  }

  lemma TallyMembers(l: Lane, s: Step, a: Addr, isGet: bool, o: Outcome, t: Tid)
    requires Enabled(l, s)
    ensures t in Tally(Apply(l, s), a, isGet, o) <==> t in Tally(l, a, isGet, o) || Hitter(l, s, a, isGet, o) == Some(t)
    ensures Hitter(l, s, a, isGet, o) == Some(t) ==> t !in Tally(l, a, isGet, o)
  {
    hide Apply, Enabled, Noted, Counts, Mark, Hitter;
    CallsStay(l, s);
    if Hitter(l, s, a, isGet, o) == Some(t) {
      HitterCounts(l, s, a, isGet, o, t);
    } else if t in Apply(l, s).txns {
      OthersCountAsBefore(l, s, a, isGet, o, t);
    }
  }

  lemma TallyStep(l: Lane, s: Step, a: Addr, isGet: bool, o: Outcome)
    requires Enabled(l, s)
    ensures |Tally(Apply(l, s), a, isGet, o)| ==
      |Tally(l, a, isGet, o)| + (if Mark(l, s, a, isGet) == Some(o) then 1 else 0)
  {
    hide Apply, Enabled, Tally, Noted, Mark;
    var hitter := Hitter(l, s, a, isGet, o);
    forall t
      ensures t in Tally(Apply(l, s), a, isGet, o) <==> t in Tally(l, a, isGet, o) || hitter == Some(t)
      ensures hitter == Some(t) ==> t !in Tally(l, a, isGet, o)
    {
      TallyMembers(l, s, a, isGet, o, t);
    }
    Sets.MaybeOneMore(Tally(l, a, isGet, o), Tally(Apply(l, s), a, isGet, o), hitter);
  }

  lemma CallsStay(l: Lane, s: Step)
    requires Enabled(l, s)
    ensures l.txns.Keys <= Apply(l, s).txns.Keys
    ensures Noted(l, s).Some? ==>
      Noted(l, s).value.0 in Apply(l, s).txns && (s.Start? || Noted(l, s).value.0 in l.txns)
  {
    if Noted(l, s).Some? {
      NoterMoves(l, s);
    }
    if OfCall(s) {
      CallStep(l, s);
      hide Apply, Enabled;
    } else if Outside(s) {
      OutsideStep(l, s);
      hide Apply, Enabled;
    }
    hide Noted;
  }

  // ---------- the counters of a run ----------

  // The counters after a run. A node is added once, so its counters start at zero.
  ghost function LedgerOf(run: Run): Ledger
    requires run.Valid()
  {
    match run
    case First(start) => map a | a in start.known :: NewMetrics()
    case Then(earlier, step) => Count(earlier.Last(), LedgerOf(earlier), step)
  }

  lemma KeysStay(l: Lane, m: Ledger, s: Step)
    requires Enabled(l, s)
    ensures Count(l, m, s).Keys == m.Keys
  {
    hide Noted, Completes, Attempted, Inspected, Timed, Bump, Source;
  }
}
