/** Liveness and values of one polled node in lib/site/bridge/bridge.go: the sweeps of
    its poller, interleaved with SET acknowledgements from other goroutines. A step is
    one section under job.mu or one delivery. */
module Liveness {
  import opened Options

  // What a provider is given: nil, or a decoded value.
  datatype Shown = Nil | Value(v: int)

  // What a successful GET brings: NULL, a value its register cannot decode, or a value.
  datatype Got = Null | Undecodable | Decoded(v: int)

  // regValue, with the decode error that sweep turns into nil.
  function RegValue(got: Got): Shown {
    if got.Decoded? then Value(got.v) else Nil
  }

  datatype Pc =
    | Resting
    | Reading(startedWith: nat, index: nat)
    | Delivering(startedWith: nat, index: nat, value: Shown)
    | Bursting(index: nat)

  datatype Event = Began | GetSucceeded(index: nat, got: Got) | SetAcknowledged | Ended

  datatype Job = Job(threshold: nat, registers: nat, successes: nat, failures: nat, offline: bool,
                     pc: Pc, delivered: seq<seq<Shown>>, log: seq<Event>)

  datatype Step =
    | Begin
    | GetFails
    | GetOk(got: Got)
    | DeliverValue
    | Finish
    | DeliverNil
    | Abort       // the context is done
    | Acknowledge // applyRequest after a SET

  predicate Enabled(j: Job, s: Step) {
    match s
    case Begin => j.pc.Resting?
    case GetFails => j.pc.Reading? && j.pc.index < j.registers
    case GetOk(_) => j.pc.Reading? && j.pc.index < j.registers
    case DeliverValue => j.pc.Delivering? && j.pc.index < |j.delivered|
    case Finish => j.pc.Reading? && j.pc.index >= j.registers
    case DeliverNil => j.pc.Bursting? && j.pc.index < |j.delivered|
    case Abort => j.pc.Reading?
    case Acknowledge => true
  }

  function NoteSuccess(j: Job): Job {
    j.(successes := j.successes + 1, failures := 0, offline := false)
  }

  function NoteFailedSweep(j: Job, startedWith: nat): Job {
    if j.successes != startedWith then j.(pc := Resting)
    else
      var failures := j.failures + 1;
      if failures < j.threshold || j.offline then j.(failures := failures, pc := Resting)
      else j.(failures := failures, offline := true, pc := BurstFrom(j, 0))
  }

  function BurstFrom(j: Job, index: nat): Pc {
    if index < j.registers then Bursting(index) else Resting
  }

  function Delivered(j: Job, index: nat, value: Shown): Job
    requires index < |j.delivered|
  {
    j.(delivered := j.delivered[index := j.delivered[index] + [value]])
  }

  function Logged(j: Job, e: Event): Job {
    j.(log := j.log + [e])
  }

  function Apply(j: Job, s: Step): Job
    requires Enabled(j, s)
  {
    match s
    case Begin => Logged(j.(pc := Reading(j.successes, 0)), Began)
    case GetFails => j.(pc := Reading(j.pc.startedWith, j.pc.index + 1))
    case GetOk(got) =>
      var value := RegValue(got);
      Logged(NoteSuccess(j).(pc := Delivering(j.pc.startedWith, j.pc.index, value)), GetSucceeded(j.pc.index, got))
    case DeliverValue => Delivered(j, j.pc.index, j.pc.value).(pc := Reading(j.pc.startedWith, j.pc.index + 1))
    case Finish => Logged(NoteFailedSweep(j, j.pc.startedWith), Ended)
    case DeliverNil => Delivered(j, j.pc.index, Nil).(pc := BurstFrom(j, j.pc.index + 1))
    case Abort => j.(pc := Resting)
    case Acknowledge => Logged(NoteSuccess(j), SetAcknowledged)
  }

  // ---------- what the fields mean ----------

  predicate IsSuccess(e: Event) { e.GetSucceeded? || e.SetAcknowledged? }

  // No success since the latest sweep began.
  predicate Quiet(log: seq<Event>) {
    log == [] ||
    (var last := log[|log| - 1];
     last.Began? || (!IsSuccess(last) && Quiet(log[..|log| - 1])))
  }

  // The completed sweeps since the last success whose whole span saw no success.
  function SilentSweeps(log: seq<Event>): nat {
    if log == [] then 0
    else
      var last, before := log[|log| - 1], log[..|log| - 1];
      if IsSuccess(last) then 0
      else if last.Ended? && Quiet(before) then SilentSweeps(before) + 1
      else SilentSweeps(before)
  }

  // Every success was before the latest sweep began.
  predicate NoSuccessSince(log: seq<Event>, k: nat)
    requires k <= |log|
  {
    forall m | 0 <= m < k && (log[m].GetSucceeded? || log[m].SetAcknowledged?) ::
      exists b | m < b < k :: log[b].Began?
  }

  // The ends of sweeps that saw no success, and after which there has been none.
  ghost function SilentEnds(log: seq<Event>): set<nat> {
    set k | 0 <= k < |log| && log[k].Ended? && NoSuccessSince(log, k)
            && forall m | k < m < |log| :: !log[m].GetSucceeded? && !log[m].SetAcknowledged?
  }

  lemma {:induction false} QuietIs(log: seq<Event>)
    ensures Quiet(log) <==> NoSuccessSince(log, |log|)
  {
    if log != [] {
      var before := log[..|log| - 1];
      QuietIs(before);
      assert forall m | 0 <= m < |before| :: before[m] == log[m];
    }
  }

  lemma SilentEndsGrow(log: seq<Event>, k: nat)
    requires log != [] && k < |log|
    ensures var before := log[..|log| - 1];
      k in SilentEnds(log) <==>
        && !IsSuccess(log[|log| - 1])
        && (k in SilentEnds(before) || (k == |before| && log[k].Ended? && Quiet(before)))
  {
    var before := log[..|log| - 1];
    assert forall m | 0 <= m < |before| :: before[m] == log[m];
    assert k < |before| ==> (NoSuccessSince(log, k) <==> NoSuccessSince(before, k));
    QuietIs(before);
    assert NoSuccessSince(log, |before|) <==> NoSuccessSince(before, |before|);
    hide Quiet;
  }

  lemma {:induction false} SilentSweepsAre(log: seq<Event>)
    ensures SilentSweeps(log) == |SilentEnds(log)|
  {
    if log == [] {
      assert SilentEnds(log) == {};
    } else {
      var before := log[..|log| - 1];
      SilentSweepsAre(before);
      forall k: nat | k < |log| {
        SilentEndsGrow(log, k);
      }
      assert forall k | k in SilentEnds(before) :: k < |before|;
      assert SilentEnds(log) ==
        if IsSuccess(log[|before|]) then {}
        else if log[|before|].Ended? && Quiet(before) then SilentEnds(before) + {|before|} else SilentEnds(before);
      hide Quiet, NoSuccessSince, SilentEnds;
    }
  }

  // The latest event is a sweep with which the node goes offline.
  predicate GoesOffline(log: seq<Event>, threshold: nat) {
    log != [] && SilentSweeps(log) == threshold && SilentSweeps(log[..|log| - 1]) + 1 == threshold
  }

  function OfflineEpisodes(log: seq<Event>, threshold: nat): nat {
    if log == [] then 0
    else OfflineEpisodes(log[..|log| - 1], threshold) + if GoesOffline(log, threshold) then 1 else 0
  }

  // What a register should have been given: the value of each of its GETs, and nil
  // each time the node went offline.
  function History(log: seq<Event>, index: nat, threshold: nat): seq<Shown> {
    if log == [] then []
    else
      var last, earlier := log[|log| - 1], History(log[..|log| - 1], index, threshold);
      if last.GetSucceeded? && last.index == index then earlier + [if last.got.Decoded? then Value(last.got.v) else Nil]
      else if GoesOffline(log, threshold) then earlier + [Nil]
      else earlier
  }

  // What a register should show now: its latest GET, or nil once the node has gone
  // offline after it.
  function Latest(log: seq<Event>, index: nat, threshold: nat): Option<Shown> {
    if log == [] then None
    else
      var last := log[|log| - 1];
      if last.GetSucceeded? && last.index == index then Some(if last.got.Decoded? then Value(last.got.v) else Nil)
      else if GoesOffline(log, threshold) then Some(Nil)
      else Latest(log[..|log| - 1], index, threshold)
  }

  // The latest event that gives a register something to show: a GET of it, or going offline.
  ghost predicate LatestFor(log: seq<Event>, index: nat, threshold: nat, k: nat) {
    && k < |log|
    && ((log[k].GetSucceeded? && log[k].index == index) || GoesOffline(log[..k + 1], threshold))
    && forall m | k < m < |log| ::
         !(log[m].GetSucceeded? && log[m].index == index) && !GoesOffline(log[..m + 1], threshold)
  }

  lemma {:induction false} LatestIs(log: seq<Event>, index: nat, threshold: nat, k: nat)
    requires threshold > 0 && LatestFor(log, index, threshold, k)
    ensures Latest(log, index, threshold) ==
      Some(if log[k].GetSucceeded? && log[k].got.Decoded? then Value(log[k].got.v) else Nil)
  {
    hide GoesOffline;
    assert log[..|log|] == log;
    if k == |log| - 1 {
      LastOfItself(log, index, threshold);
    } else {
      StillLatestFor(log, index, threshold, k);
      hide LatestFor;
      LatestIs(log[..|log| - 1], index, threshold, k);
    }
  }

  lemma LastOfItself(log: seq<Event>, index: nat, threshold: nat)
    requires threshold > 0 && log != []
    requires var last := log[|log| - 1]; (last.GetSucceeded? && last.index == index) || GoesOffline(log, threshold)
    ensures var last := log[|log| - 1];
      Latest(log, index, threshold) == Some(if last.GetSucceeded? && last.got.Decoded? then Value(last.got.v) else Nil)
  {
    var before, last := log[..|log| - 1], log[|log| - 1];
    assert log == before + [last];
    LogGrows(before, last, index, threshold);
    hide GoesOffline, SilentSweeps, Quiet, History;
  }

  lemma StillLatestFor(log: seq<Event>, index: nat, threshold: nat, k: nat)
    requires LatestFor(log, index, threshold, k) && k < |log| - 1
    ensures LatestFor(log[..|log| - 1], index, threshold, k)
    ensures var last := log[|log| - 1]; !(last.GetSucceeded? && last.index == index) && !GoesOffline(log, threshold)
  {
    hide GoesOffline;
    var m := |log| - 1;
    assert log[..m + 1] == log;
    assert !(log[m].GetSucceeded? && log[m].index == index) && !GoesOffline(log[..m + 1], threshold);
    var before := log[..|log| - 1];
    forall m | 0 <= m < |before| ensures before[m] == log[m] && before[..m + 1] == log[..m + 1] {
    }
  }

  // The successful GETs of a register.
  function Gets(log: seq<Event>, index: nat): nat {
    if log == [] then 0
    else
      var last := log[|log| - 1];
      Gets(log[..|log| - 1], index) + if last.GetSucceeded? && last.index == index then 1 else 0
  }

  function Last(values: seq<Shown>): Option<Shown> {
    if values == [] then None else Some(values[|values| - 1])
  }

  // ---------- runs ----------

  predicate Initial(j: Job) {
    && j.threshold > 0 && j.successes == 0 && j.failures == 0 && !j.offline && j.pc.Resting? && j.log == []
    && |j.delivered| == j.registers && forall i | 0 <= i < |j.delivered| :: j.delivered[i] == []
  }

  datatype Run = First(start: Job) | Then(run: Run, step: Step) {
    predicate Valid()
      decreases this, 0
    {
      match this
      case First(start) => Initial(start)
      case Then(run, step) => run.Valid() && Enabled(run.Last(), step)
    }

    function Last(): Job
      requires Valid()
      decreases this, 1
    {
      match this
      case First(start) => start
      case Then(run, step) => Apply(run.Last(), step)
    }

    predicate Extends(earlier: Run) {
      this == earlier || (Then? && run.Extends(earlier))
    }
  }

  // ---------- the invariant ----------

  ghost predicate Counted(j: Job) {
    && j.threshold > 0
    && j.failures == SilentSweeps(j.log)
    && (j.offline <==> j.failures >= j.threshold)
    && (j.pc.Reading? || j.pc.Delivering? ==>
          j.pc.startedWith <= j.successes && (j.pc.startedWith == j.successes <==> Quiet(j.log)))
  }

  // The delivery to a register that has been decided and is still to come.
  function ToCome(j: Job, index: nat): seq<Shown> {
    if j.pc.Delivering? && j.pc.index == index then [j.pc.value]
    else if j.pc.Bursting? && j.pc.index <= index then [Nil]
    else []
  }

  ghost predicate Given(j: Job, i: nat) {
    && i < |j.delivered| == j.registers
    && (j.pc.Delivering? || j.pc.Bursting? ==> j.pc.index < j.registers)
    && History(j.log, i, j.threshold) == j.delivered[i] + ToCome(j, i)
  }

  lemma LogGrows(log: seq<Event>, e: Event, index: nat, threshold: nat)
    requires threshold > 0
    ensures Quiet(log + [e]) <==> e.Began? || (!IsSuccess(e) && Quiet(log))
    ensures SilentSweeps(log + [e]) ==
      if IsSuccess(e) then 0 else if e.Ended? && Quiet(log) then SilentSweeps(log) + 1 else SilentSweeps(log)
    ensures GoesOffline(log + [e], threshold) <==> e.Ended? && Quiet(log) && SilentSweeps(log) + 1 == threshold
    ensures History(log + [e], index, threshold) == History(log, index, threshold) +
      if e.GetSucceeded? && e.index == index then [if e.got.Decoded? then Value(e.got.v) else Nil]
      else if GoesOffline(log + [e], threshold) then [Nil] else []
  {
    assert (log + [e])[..|log|] == log;
    hide IsSuccess;
  }

  function EventOf(j: Job, s: Step): Option<Event>
    requires Enabled(j, s)
  {
    match s
    case Begin => Some(Began)
    case GetOk(got) => Some(GetSucceeded(j.pc.index, got))
    case Finish => Some(Ended)
    case Acknowledge => Some(SetAcknowledged)
    case _ => None
  }

  lemma FinishKeepsCounted(j: Job)
    requires Counted(j) && Enabled(j, Finish)
    ensures Counted(Apply(j, Finish))
  {
    LogGrows(j.log, Ended, 0, j.threshold);
    hide Quiet, SilentSweeps, GoesOffline, History;
  }

  lemma SuccessKeepsCounted(j: Job, s: Step)
    requires Counted(j) && Enabled(j, s) && (s.GetOk? || s.Acknowledge?)
    ensures Counted(Apply(j, s))
  {
    LogGrows(j.log, EventOf(j, s).value, 0, j.threshold);
    hide Quiet, SilentSweeps, GoesOffline, History;
  }

  lemma CountedKept(j: Job, s: Step)
    requires Counted(j) && Enabled(j, s)
    ensures Counted(Apply(j, s))
  {
    if s.Finish? {
      FinishKeepsCounted(j);
    } else if s.GetOk? || s.Acknowledge? {
      SuccessKeepsCounted(j, s);
    } else {
      LogGrows(j.log, Began, 0, j.threshold);
      hide Quiet, SilentSweeps, GoesOffline, History;
    }
  }

  lemma FinishKeepsGiven(j: Job, i: nat)
    requires Counted(j) && Given(j, i) && Enabled(j, Finish)
    ensures Given(Apply(j, Finish), i)
  {
    LogGrows(j.log, Ended, i, j.threshold);
    hide Quiet, SilentSweeps, GoesOffline, History;
  }

  lemma GetKeepsGiven(j: Job, got: Got, i: nat)
    requires Given(j, i) && j.threshold > 0 && Enabled(j, GetOk(got))
    ensures Given(Apply(j, GetOk(got)), i)
  {
    hide Quiet, SilentSweeps, GoesOffline, History;
    LogGrows(j.log, GetSucceeded(j.pc.index, got), i, j.threshold);
  }

  lemma NoValueKeepsGiven(j: Job, s: Step, i: nat)
    requires Given(j, i) && j.threshold > 0 && Enabled(j, s) && (s.Begin? || s.Acknowledge?)
    ensures Given(Apply(j, s), i)
  {
    LogGrows(j.log, EventOf(j, s).value, i, j.threshold);
    hide Quiet, SilentSweeps, GoesOffline, History;
  }

  lemma DeliveryKeepsGiven(j: Job, s: Step, i: nat)
    requires Given(j, i) && Enabled(j, s) && EventOf(j, s).None?
    ensures Given(Apply(j, s), i)
  {
    hide History;
  }

  lemma GivenKept(j: Job, s: Step, i: nat)
    requires Counted(j) && Given(j, i) && Enabled(j, s)
    ensures Given(Apply(j, s), i)
  {
    hide Given, Apply;
    match s
    case Finish => FinishKeepsGiven(j, i);
    case GetOk(got) => GetKeepsGiven(j, got, i);
    case Begin => NoValueKeepsGiven(j, s, i);
    case Acknowledge => NoValueKeepsGiven(j, s, i);
    case _ => DeliveryKeepsGiven(j, s, i);
  }

  lemma {:induction false} Reachable(run: Run)
    requires run.Valid()
    ensures Counted(run.Last())
  {
    if run.Then? {
      Reachable(run.run);
      CountedKept(run.run.Last(), run.step);
    }
  }

  lemma GivenIs(j: Job, i: nat)
    requires Given(j, i)
    ensures i < |j.delivered| && History(j.log, i, j.threshold) == j.delivered[i] + ToCome(j, i)
  {
  }

  lemma RegistersStay(j: Job, s: Step)
    requires Enabled(j, s)
    ensures |Apply(j, s).delivered| == |j.delivered|
  {
  }

  // However sweeps and acknowledgements interleave, a register has been given exactly
  // its history, but for a delivery that is on its way.
  lemma {:induction false} DeliveriesAreTheHistory(run: Run, i: nat)
    requires run.Valid() && i < |run.Last().delivered|
    ensures var j := run.Last();
      History(j.log, i, j.threshold) == j.delivered[i] + ToCome(j, i)
    ensures Given(run.Last(), i)
  {
    if run.Then? {
      hide Given, Counted, Apply, Enabled, History;
      RegistersStay(run.run.Last(), run.step);
      DeliveriesAreTheHistory(run.run, i);
      Reachable(run.run);
      GivenKept(run.run.Last(), run.step, i);
      GivenIs(run.Last(), i);
    }
  }

  // However sweeps and acknowledgements interleave, failures counts the silent sweeps,
  // and the node is offline exactly when they reach the threshold.
  lemma FailuresAreSilentSweeps(run: Run)
    requires run.Valid()
    ensures var j := run.Last();
      && j.failures == SilentSweeps(j.log) == |SilentEnds(j.log)|
      && (j.offline <==> |SilentEnds(j.log)| >= j.threshold)
  {
    Reachable(run);
    SilentSweepsAre(run.Last().log);
    hide run.Valid, run.Last, SilentSweeps, SilentEnds;
  }

  lemma {:induction false} HistoryCounts(log: seq<Event>, index: nat, threshold: nat)
    requires threshold > 0
    ensures |History(log, index, threshold)| == Gets(log, index) + OfflineEpisodes(log, threshold)
  {
    if log != [] {
      HistoryCounts(log[..|log| - 1], index, threshold);
      hide SilentSweeps;
    }
  }

  // Each register gets nil exactly once for each time the node goes offline, beside one
  // value for each of its GETs.
  lemma OneNilForEachEpisode(run: Run, i: nat)
    requires run.Valid() && i < |run.Last().delivered|
    ensures var j := run.Last();
      |j.delivered[i]| + |ToCome(j, i)| == Gets(j.log, i) + OfflineEpisodes(j.log, j.threshold)
  {
    Reachable(run);
    DeliveriesAreTheHistory(run, i);
    HistoryCounts(run.Last().log, i, run.Last().threshold);
    hide run.Valid, run.Last, History, Gets, OfflineEpisodes;
  }

  lemma {:induction false} LatestIsNewest(log: seq<Event>, index: nat, threshold: nat)
    ensures Latest(log, index, threshold) == Last(History(log, index, threshold))
  {
    if log != [] {
      LatestIsNewest(log[..|log| - 1], index, threshold);
      hide GoesOffline;
    }
  }

  // Between two events of its poller, the newest delivery to each register is its
  // latest decoded GET, or nil after NULL, after a value it cannot decode, and after
  // the node has gone offline since.
  lemma NewestDeliveryIsLatest(run: Run, i: nat)
    requires run.Valid() && i < |run.Last().delivered| && ToCome(run.Last(), i) == []
    ensures Last(run.Last().delivered[i]) == Latest(run.Last().log, i, run.Last().threshold)
    ensures var log, given := run.Last().log, run.Last().delivered[i];
      forall k: nat | LatestFor(log, i, run.Last().threshold, k) ::
        && given != []
        && given[|given| - 1] == if log[k].GetSucceeded? && log[k].got.Decoded? then Value(log[k].got.v) else Nil
  {
    Reachable(run);
    DeliveriesAreTheHistory(run, i);
    hide run.Valid, run.Last, History, Latest, ToCome;
    NewestOf(run.Last(), i);
  }

  lemma NewestOf(j: Job, i: nat)
    requires j.threshold > 0 && i < |j.delivered| && History(j.log, i, j.threshold) == j.delivered[i]
    ensures Last(j.delivered[i]) == Latest(j.log, i, j.threshold)
    ensures forall k: nat | LatestFor(j.log, i, j.threshold, k) ::
      && j.delivered[i] != []
      && j.delivered[i][|j.delivered[i]| - 1] ==
           if j.log[k].GetSucceeded? && j.log[k].got.Decoded? then Value(j.log[k].got.v) else Nil
  {
    LatestIsNewest(j.log, i, j.threshold);
    hide History, Latest, LatestFor;
    forall k: nat | LatestFor(j.log, i, j.threshold, k)
      ensures k < |j.log|
      ensures Latest(j.log, i, j.threshold) ==
        Some(if j.log[k].GetSucceeded? && j.log[k].got.Decoded? then Value(j.log[k].got.v) else Nil)
    {
      LatestIs(j.log, i, j.threshold, k);
      LatestIsThere(j.log, i, j.threshold, k);
    }
  }

  lemma LatestIsThere(log: seq<Event>, index: nat, threshold: nat, k: nat)
    requires LatestFor(log, index, threshold, k)
    ensures k < |log|
  {
  }

  lemma AllGiven(run: Run)
    requires run.Valid() && run.Last().pc.Resting?
    ensures var j := run.Last();
      && j.failures == SilentSweeps(j.log) && (j.offline <==> SilentSweeps(j.log) >= j.threshold)
      && forall i | 0 <= i < |j.delivered| :: j.delivered[i] == History(j.log, i, j.threshold)
  {
    Reachable(run);
    forall i: nat | i < |run.Last().delivered|
      ensures run.Last().delivered[i] == History(run.Last().log, i, run.Last().threshold)
    {
      DeliveriesAreTheHistory(run, i);
    }
    hide SilentSweeps, History;
  }

  // ---------- the node itself ----------

  function Acks(n: nat): seq<Event> {
    if n == 0 then [] else Acks(n - 1) + [SetAcknowledged]
  }

  // What one register's turn adds to the history: acknowledgements, and its GET.
  function TurnLog(result: Option<Got>, acknowledgements: nat, index: nat): seq<Event> {
    Acks(acknowledgements) + if result.Some? then [GetSucceeded(index, result.value)] else []
  }

  // What it delivers.
  function Brought(result: Option<Got>): seq<Shown> {
    match result
    case None => []
    case Some(Decoded(v)) => [Value(v)]
    case Some(_) => [Nil]
  }

  // Nothing succeeds in the turns of the first n registers.
  predicate Silent(results: seq<Option<Got>>, others: seq<nat>, n: nat)
    requires n <= |results| && n <= |others|
  {
    forall i | 0 <= i < n :: results[i].None? && others[i] == 0
  }

  // The history of the first n registers of a sweep.
  function SweepLog(results: seq<Option<Got>>, others: seq<nat>, n: nat): seq<Event>
    requires n <= |results| && n <= |others|
  {
    if n == 0 then [] else SweepLog(results, others, n - 1) + TurnLog(results[n - 1], others[n - 1], n - 1)
  }

  // What one register's turn does to a job.
  ghost predicate Turned(before: Job, now: Job, result: Option<Got>, acknowledgements: nat, index: nat) {
    && now.log == before.log + TurnLog(result, acknowledgements, index)
    && |now.delivered| == |before.delivered|
    && (forall i | 0 <= i < |before.delivered| ::
          now.delivered[i] == before.delivered[i] + if i == index then Brought(result) else [])
    && now.successes >= before.successes
    && (now.successes == before.successes <==> result.None? && acknowledgements == 0)
    && (now.successes == before.successes ==> now.failures == before.failures && now.offline == before.offline)
  }

  // And the turns of the first n registers.
  ghost predicate ReadTo(before: Job, now: Job, results: seq<Option<Got>>, others: seq<nat>, n: nat)
    requires n <= |results| && n <= |others|
  {
    && now.log == before.log + SweepLog(results, others, n)
    && |now.delivered| == |before.delivered|
    && (forall i | 0 <= i < |before.delivered| && i < |results| ::
          now.delivered[i] == before.delivered[i] + if i < n then Brought(results[i]) else [])
    && now.successes >= before.successes
    && (now.successes == before.successes <==> Silent(results, others, n))
    && (now.successes == before.successes ==> now.failures == before.failures && now.offline == before.offline)
  }

  lemma NothingRead(j: Job, results: seq<Option<Got>>, others: seq<nat>)
    ensures ReadTo(j, j, results, others, 0)
  {
  }

  lemma OneMoreTurn(before: Job, mid: Job, now: Job, results: seq<Option<Got>>, others: seq<nat>, n: nat)
    requires n < |results| && n < |others| && ReadTo(before, mid, results, others, n)
    requires Turned(mid, now, results[n], others[n], n)
    ensures ReadTo(before, now, results, others, n + 1)
  {
    hide TurnLog, Brought;
    assert Silent(results, others, n + 1) <==> Silent(results, others, n) && results[n].None? && others[n] == 0;
  }

  lemma ReadIs(before: Job, now: Job, results: seq<Option<Got>>, others: seq<nat>, n: nat)
    requires n <= |results| && n <= |others| && ReadTo(before, now, results, others, n)
    ensures now.log == before.log + SweepLog(results, others, n) && |now.delivered| == |before.delivered|
    ensures forall i | 0 <= i < |before.delivered| && i < |results| ::
      now.delivered[i] == before.delivered[i] + if i < n then Brought(results[i]) else []
    ensures now.successes >= before.successes && (now.successes == before.successes <==> Silent(results, others, n))
    ensures now.successes == before.successes ==> now.failures == before.failures && now.offline == before.offline
  {
    hide SweepLog, Brought, Silent;
  }

  class PolledNode {
    const threshold: nat
    const registers: nat
    var successes: nat
    var failures: nat
    var offline: bool
    var delivered: seq<seq<Shown>>  // what deliverLatest has been called with
    ghost var run: Run

    ghost predicate Valid()
      reads this
    {
      run.Valid() &&
      var j := run.Last();
      && j.threshold == threshold > 0 && j.registers == registers == |delivered|
      && j.successes == successes && j.failures == failures && j.offline == offline && j.delivered == delivered
    }

    constructor (threshold: nat, registers: nat)
      requires threshold > 0
      ensures Valid() && run.First? && this.threshold == threshold && this.registers == registers
    {
      this.threshold, this.registers := threshold, registers;
      successes, failures, offline := 0, 0, false;
      delivered := seq(registers, _ => []);
      run := First(Job(threshold, registers, 0, 0, false, Resting, seq(registers, _ => []), []));
    }

    // The lock section of noteSuccess: after a GET, or after an acknowledged SET.
    method NoteSuccess(ghost s: Step)
      requires Valid() && Enabled(run.Last(), s) && (s.GetOk? || s.Acknowledge?)
      modifies this
      ensures Valid() && run == Then(old(run), s) && !offline && failures == 0
      ensures successes == old(successes) + 1 && delivered == old(delivered)
      ensures run.Last().log == old(run.Last().log) + [EventOf(old(run.Last()), s).value]
    {
      successes := successes + 1;
      failures := 0;
      offline := false;
      run := Then(run, s);
    }

    // Other goroutines get SETs acknowledged.
    method Others(acknowledgements: nat)
      requires Valid()
      modifies this
      ensures Valid() && run.Extends(old(run)) && run.Last().pc == old(run.Last().pc)
      ensures run.Last().log == old(run.Last().log) + Acks(acknowledgements)
      ensures delivered == old(delivered) && successes == old(successes) + acknowledgements
      ensures acknowledgements == 0 ==> failures == old(failures) && offline == old(offline)
    {
      for i := 0 to acknowledgements
        invariant Valid() && run.Extends(old(run)) && run.Last().pc == old(run.Last().pc)
        invariant delivered == old(delivered) && successes == old(successes) + i
        invariant i == 0 ==> failures == old(failures) && offline == old(offline)
        invariant run.Last().log == old(run.Last().log) + Acks(i)
      {
        NoteSuccess(Acknowledge);
      }
    }

    method DeliverLatest(index: nat, value: Shown)
      requires Valid() && index < registers
      requires run.Last().pc == Bursting(index) ==> value == Nil
      requires run.Last().pc.Bursting? || run.Last().pc.Delivering?
      requires run.Last().pc.index == index && (run.Last().pc.Delivering? ==> run.Last().pc.value == value)
      modifies this`delivered, this`run
      ensures Valid() && run == Then(old(run), if old(run.Last().pc.Bursting?) then DeliverNil else DeliverValue)
      ensures run.Last().log == old(run.Last().log)
      ensures delivered == old(delivered)[index := old(delivered)[index] + [value]]
    {
      delivered := delivered[index := delivered[index] + [value]];
      run := Then(run, if run.Last().pc.Bursting? then DeliverNil else DeliverValue);
    }

    // The loop with which a node goes offline.
    method Burst()
      requires Valid() && run.Last().pc == BurstFrom(run.Last(), 0)
      modifies this`delivered, this`run
      ensures Valid() && run.Extends(old(run)) && run.Last().pc == Resting
      ensures run.Last().log == old(run.Last().log)
      ensures forall i | 0 <= i < registers :: delivered[i] == old(delivered[i]) + [Nil]
    {
      for index := 0 to registers
        invariant Valid() && run.Extends(old(run)) && run.Last().pc == BurstFrom(run.Last(), index)
        invariant run.Last().log == old(run.Last().log)
        invariant forall i | 0 <= i < registers ::
          delivered[i] == old(delivered[i]) + if i < index then [Nil] else []
      {
        DeliverLatest(index, Nil);
      }
    }

    // A sweep without success counts as a failure; the one that reaches the threshold
    // takes the node offline and gives every register nil, once.
    method NoteFailedSweep(startedWith: nat)
      requires Valid() && run.Last().pc.Reading? && run.Last().pc.startedWith == startedWith
      requires run.Last().pc.index >= registers
      modifies this
      ensures Valid() && run.Extends(old(run)) && run.Last().pc == Resting
      ensures run.Last().log == old(run.Last().log) + [Ended] && successes == old(successes)
      ensures var silent := old(successes) == startedWith;
        var goesOffline := silent && !old(offline) && old(failures) + 1 >= threshold;
        && failures == old(failures) + (if silent then 1 else 0)
        && offline == (old(offline) || goesOffline)
        && forall i | 0 <= i < registers ::
             delivered[i] == old(delivered[i]) + if goesOffline then [Nil] else []
    {
      if successes != startedWith {
        run := Then(run, Finish);
        return;
      }
      failures := failures + 1;
      if failures < threshold || offline {
        run := Then(run, Finish);
        return;
      }
      offline := true;
      run := Then(run, Finish);
      ghost var decided := run;
      Burst();
      ExtendsThrough(old(run), decided, run);
    }

    // One sweep, with exactly its history. results holds what each Get brings, None being
    // an error, others what happens before each step, and canceled when the context is
    // found done. Every register whose Get succeeds is given its value, or nil for NULL and
    // for a value that cannot be decoded; the others are given nil if the node goes offline.
    method Sweep(results: seq<Option<Got>>, others: seq<nat>, canceled: nat)
      requires Valid() && run.Last().pc.Resting? && |results| == registers && |others| == registers + 1
      modifies this
      ensures Valid() && run.Extends(old(run)) && run.Last().pc.Resting?
      ensures run.Last().log == old(run.Last().log) + [Began]
        + SweepLog(results, others, if canceled < registers then canceled else registers)
        + if canceled > registers then Acks(others[registers]) + [Ended] else []
      ensures var log := run.Last().log;
        && failures == SilentSweeps(log) && (offline <==> SilentSweeps(log) >= threshold)
        && forall i | 0 <= i < registers :: delivered[i] == History(log, i, threshold)
      ensures var ended := canceled > registers;
        var silent := (forall i | 0 <= i < registers :: results[i].None?)
          && (forall i | 0 <= i <= registers :: others[i] == 0);
        var goesOffline := ended && silent && !old(offline) && old(failures) + 1 >= threshold;
        forall i | 0 <= i < registers ::
          if i < canceled && results[i].Some? then
            delivered[i] == old(delivered[i]) + [if results[i].value.Decoded? then Value(results[i].value.v) else Nil]
          else delivered[i] == old(delivered[i]) + if goesOffline then [Nil] else []
    {
      hide Apply, Enabled, Quiet, SilentSweeps, History, Counted, Given, OfflineEpisodes, GoesOffline, SweepLog;
      SweepOnce(results, others, canceled);
      AllGiven(run);
    }

    method SweepOnce(results: seq<Option<Got>>, others: seq<nat>, canceled: nat)
      requires Valid() && run.Last().pc.Resting? && |results| == registers && |others| == registers + 1
      modifies this
      ensures Valid() && run.Extends(old(run)) && run.Last().pc.Resting?
      ensures run.Last().log == old(run.Last().log) + [Began]
        + SweepLog(results, others, if canceled < registers then canceled else registers)
        + if canceled > registers then Acks(others[registers]) + [Ended] else []
      ensures var goesOffline := canceled > registers && Silent(results, others, registers) && others[registers] == 0
          && !old(offline) && old(failures) + 1 >= threshold;
        forall i | 0 <= i < registers ::
          delivered[i] == old(delivered[i]) + (if i < canceled then Brought(results[i]) else [])
            + if goesOffline then [Nil] else []
    {
      hide Quiet, SilentSweeps, History, Counted, Given, OfflineEpisodes, GoesOffline, Brought, SweepLog;
      var startedWith := successes;
      run := Then(run, Begin);
      hide Apply, Enabled, run.Valid, run.Last;
      ghost var begun := run;
      var index := ReadRegisters(results, others, canceled, startedWith);
      ExtendsThrough(old(run), begun, run);
      ghost var read := run;
      EndSweep(canceled <= registers, others[registers], startedWith);
      ExtendsThrough(old(run), read, run);
    }

    // The loop over the registers, up to where the context is found done.
    method ReadRegisters(results: seq<Option<Got>>, others: seq<nat>, canceled: nat, startedWith: nat)
      returns (index: nat)
      requires Valid() && run.Last().pc == Reading(startedWith, 0) && |results| == registers
        && |others| == registers + 1
      modifies this
      ensures Valid() && run.Extends(old(run)) && run.Last().pc == Reading(startedWith, index)
      ensures index == (if canceled < registers then canceled else registers)
      ensures run.Last().log == old(run.Last().log) + SweepLog(results, others, index)
      ensures forall i | 0 <= i < registers ::
        delivered[i] == old(delivered[i]) + if i < index then Brought(results[i]) else []
      ensures successes >= old(successes) && (successes == old(successes) <==> Silent(results, others, index))
      ensures successes == old(successes) ==> failures == old(failures) && offline == old(offline)
    {
      hide Apply, Enabled, ReadTo, Turned, run.Valid, History, Quiet, SilentSweeps, GoesOffline;
      ghost var before := run.Last();
      index := 0;
      NothingRead(before, results, others);
      while index < registers && index != canceled
        invariant index <= registers && index <= canceled
        invariant Valid() && run.Extends(old(run)) && run.Last().pc == Reading(startedWith, index)
        invariant ReadTo(before, run.Last(), results, others, index)
      {
        ghost var turn := run.Last();
        GetAndDeliver(index, startedWith, results[index], others[index], old(run));
        OneMoreTurn(before, turn, run.Last(), results, others, index);
        index := index + 1;
      }
      ReadIs(before, run.Last(), results, others, index);
    }

    // A context found done ends the sweep there; otherwise it has failed or succeeded.
    method EndSweep(aborted: bool, acknowledgements: nat, startedWith: nat)
      requires Valid() && run.Last().pc.Reading? && run.Last().pc.startedWith == startedWith <= successes
      requires !aborted ==> run.Last().pc.index >= registers
      modifies this
      ensures Valid() && run.Extends(old(run)) && run.Last().pc.Resting?
      ensures run.Last().log == old(run.Last().log) + if aborted then [] else Acks(acknowledgements) + [Ended]
      ensures var goesOffline := !aborted && old(successes) == startedWith && acknowledgements == 0
          && !old(offline) && old(failures) + 1 >= threshold;
        forall i | 0 <= i < registers :: delivered[i] == old(delivered[i]) + if goesOffline then [Nil] else []
    {
      if aborted {
        run := Then(run, Abort);
      } else {
        Others(acknowledgements);
        ghost var before := run;
        NoteFailedSweep(startedWith);
        ExtendsThrough(old(run), before, run);
      }
    }

    method GetAndDeliver(index: nat, startedWith: nat, result: Option<Got>, acknowledgements: nat, ghost since: Run)
      requires Valid() && run.Extends(since) && run.Last().pc == Reading(startedWith, index) && index < registers
      modifies this
      ensures Valid() && run.Extends(since) && run.Last().pc == Reading(startedWith, index + 1)
      ensures Turned(old(run.Last()), run.Last(), result, acknowledgements, index)
    {
      hide History, Quiet, SilentSweeps, GoesOffline;
      ghost var before := run;
      Others(acknowledgements);
      ExtendsThrough(since, before, run);
      if result.None? {
        run := Then(run, GetFails);
      } else {
        DeliverValueOf(index, startedWith, result.value);
      }
    }

    // A Get that has succeeded: the success, and its value or nil to the provider.
    method DeliverValueOf(index: nat, startedWith: nat, got: Got)
      requires Valid() && run.Last().pc == Reading(startedWith, index) && index < registers
      modifies this
      ensures Valid() && run.Then? && run.run.Then? && run.run.run == old(run)
      ensures run.Last().pc == Reading(startedWith, index + 1) && successes == old(successes) + 1
      ensures run.Last().log == old(run.Last().log) + [GetSucceeded(index, got)]
      ensures delivered == old(delivered)[index := old(delivered)[index] + Brought(Some(got))]
    {
      hide History, Quiet, SilentSweeps, GoesOffline;
      NoteSuccess(GetOk(got));
      DeliverLatest(index, RegValue(got));
    }
  }

  lemma {:induction false} ExtendsThrough(a: Run, b: Run, c: Run)
    requires b.Extends(a) && c.Extends(b)
    ensures c.Extends(a)
  {
    if c != b {
      ExtendsThrough(a, b, c.run);
    }
  }
}
