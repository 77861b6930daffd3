/** The channel schedulers of lib/site/bridge/bridge.go as a state machine: ServeNode
    racing with rounds, cancellation and retirement. A step is one lock section, one
    channel operation, or one move of a goroutine between them. */
module Pollers {
  import opened Options
  import opened Rounds

  type Chan = nat
  type Pid = nat  // a channelPoller

  // How far ServeNode has got with a job. From Holding to Watched it has bridge.mu.
  datatype Serving =
    | Called
    | Holding
    | Appended(poller: Pid)
    | Watched(poller: Pid)
    | Served(poller: Pid)
  {
    predicate Adding() { Appended? || Watched? }

    predicate HasPoller() { Adding() || Served? }
  }

  // The goroutine that waits for a job's context.
  datatype Watcher = Absent | Armed | Fired

  datatype JobState = JobState(chan: Chan, canceled: bool, serving: Serving, watcher: Watcher)

  datatype Pc =
    | Rounding
    | Checking  // the snapshot was empty
    | Sweeping(snapshot: seq<Job>, start: nat, offset: nat)
    | Sleeping(snapshot: seq<Job>)
    | Retired

  datatype Poller = Poller(chan: Chan, nodes: seq<Job>, cursor: nat, wake: bool, pc: Pc)

  datatype Sched = Sched(channels: map<Chan, Pid>, mutex: Option<Job>, pollers: seq<Poller>, jobs: map<Job, JobState>)

  datatype Step =
    | Serve(j: Job, chan: Chan)
    | Lock(j: Job)
    | Create(j: Job)
    | Append(j: Job)
    | Watch(j: Job)
    | Signal(j: Job)
    | Cancel(j: Job)
    | WatchFires(j: Job)
    | Round(p: Pid)
    | RetireIfEmpty(p: Pid)
    | Visit(p: Pid)
    | Slip(p: Pid)   // the sweep took the whole interval
    | Pause(p: Pid)
    | Wake(p: Pid)
    | Timer(p: Pid)

  predicate Enabled(s: Sched, step: Step) {
    match step
    case Serve(j, _) => j !in s.jobs
    case Lock(j) => j in s.jobs && s.jobs[j].serving.Called? && s.mutex.None?
    case Create(j) => j in s.jobs && s.jobs[j].serving.Holding? && s.jobs[j].chan !in s.channels
    case Append(j) =>
      j in s.jobs && s.jobs[j].serving.Holding? && s.jobs[j].chan in s.channels
      && s.channels[s.jobs[j].chan] < |s.pollers|
    case Watch(j) => j in s.jobs && s.jobs[j].serving.Appended?
    case Signal(j) => j in s.jobs && s.jobs[j].serving.Watched? && s.jobs[j].serving.poller < |s.pollers|
    case Cancel(j) => j in s.jobs
    case WatchFires(j) =>
      j in s.jobs && s.jobs[j].canceled && s.jobs[j].watcher.Armed?
      && s.jobs[j].serving.HasPoller() && s.jobs[j].serving.poller < |s.pollers|
    case Round(p) => p < |s.pollers| && s.pollers[p].pc.Rounding?
    case RetireIfEmpty(p) => p < |s.pollers| && s.pollers[p].pc.Checking? && s.mutex.None?
    case Visit(p) => p < |s.pollers| && s.pollers[p].pc.Sweeping? && s.pollers[p].pc.offset < |s.pollers[p].pc.snapshot|
    case Slip(p) => p < |s.pollers| && s.pollers[p].pc.Sweeping? && s.pollers[p].pc.offset >= |s.pollers[p].pc.snapshot|
    case Pause(p) => p < |s.pollers| && s.pollers[p].pc.Sweeping?
      && s.pollers[p].pc.offset >= |s.pollers[p].pc.snapshot|
    case Wake(p) => p < |s.pollers| && s.pollers[p].pc.Sleeping? && s.pollers[p].wake
    case Timer(p) => p < |s.pollers| && s.pollers[p].pc.Sleeping?
  }

  function SetServing(s: Sched, j: Job, serving: Serving): Sched
    requires j in s.jobs
  {
    s.(jobs := s.jobs[j := s.jobs[j].(serving := serving)])
  }

  function SetPoller(s: Sched, p: Pid, poller: Poller): Sched
    requires p < |s.pollers|
  {
    s.(pollers := s.pollers[p := poller])
  }

  function SetPc(s: Sched, p: Pid, pc: Pc): Sched
    requires p < |s.pollers|
  {
    SetPoller(s, p, s.pollers[p].(pc := pc))
  }

  // The jobs whose contexts are not done.
  function LiveJobs(s: Sched): set<Job> {
    set j | j in s.jobs && !s.jobs[j].canceled
  }

  function Apply(s: Sched, step: Step): Sched
    requires Enabled(s, step)
  {
    match step
    case Serve(j, chan) => s.(jobs := s.jobs[j := JobState(chan, false, Called, Absent)])
    case Lock(j) => SetServing(s, j, Holding).(mutex := Some(j))
    case Create(j) =>
      var p := |s.pollers|;
      s.(channels := s.channels[s.jobs[j].chan := p],
         mutex := None,
         pollers := s.pollers + [Poller(s.jobs[j].chan, [j], 0, false, Rounding)],
         jobs := s.jobs[j := s.jobs[j].(serving := Served(p), watcher := Armed)])
    case Append(j) =>
      var p := s.channels[s.jobs[j].chan];
      SetPoller(SetServing(s, j, Appended(p)), p, s.pollers[p].(nodes := s.pollers[p].nodes + [j]))
    case Watch(j) => s.(jobs := s.jobs[j := s.jobs[j].(serving := Watched(s.jobs[j].serving.poller), watcher := Armed)])
    case Signal(j) =>
      var p := s.jobs[j].serving.poller;
      SetPoller(SetServing(s, j, Served(p)), p, s.pollers[p].(wake := true)).(mutex := None)
    case Cancel(j) => s.(jobs := s.jobs[j := s.jobs[j].(canceled := true)])
    case WatchFires(j) =>
      var p := s.jobs[j].serving.poller;
      SetPoller(s.(jobs := s.jobs[j := s.jobs[j].(watcher := Fired)]), p, s.pollers[p].(wake := true))
    case Round(p) =>
      var nodes := Filter(s.pollers[p].nodes, LiveJobs(s));
      if nodes == [] then SetPoller(s, p, s.pollers[p].(nodes := [], pc := Checking))
      else
        var start := s.pollers[p].cursor % |nodes|;
        SetPoller(s, p, s.pollers[p].(nodes := nodes, cursor := start + 1, pc := Sweeping(nodes, start, 0)))
    case RetireIfEmpty(p) =>
      var poller := s.pollers[p];
      if poller.chan in s.channels && s.channels[poller.chan] == p && poller.nodes == [] then
        SetPc(s, p, Retired).(channels := s.channels - {poller.chan})
      else SetPc(s, p, Rounding)
    case Visit(p) => SetPc(s, p, s.pollers[p].pc.(offset := s.pollers[p].pc.offset + 1))
    case Slip(p) => SetPc(s, p, Rounding)
    case Pause(p) => SetPc(s, p, Sleeping(s.pollers[p].pc.snapshot))
    case Wake(p) => SetPoller(s, p, s.pollers[p].(wake := false, pc := Rounding))
    case Timer(p) => SetPc(s, p, Rounding)
  }

  // ---------- the invariant ----------

  // The pollers in the registry are exactly those that run, one for each channel.
  ghost predicate Registered(s: Sched) {
    && (forall c | c in s.channels ::
          s.channels[c] < |s.pollers| && s.pollers[s.channels[c]].chan == c && !s.pollers[s.channels[c]].pc.Retired?)
    && (forall p | 0 <= p < |s.pollers| ::
          if s.pollers[p].pc.Retired? then s.pollers[p].nodes == []
          else s.pollers[p].chan in s.channels && s.channels[s.pollers[p].chan] == p)
  }

  // Only the holder of bridge.mu is between its lookup and its signal.
  ghost predicate Exclusive(s: Sched) {
    && (s.mutex.Some? ==> s.mutex.value in s.jobs)
    && forall j | j in s.jobs :: s.mutex == Some(j) <==> (s.jobs[j].serving.Holding? || s.jobs[j].serving.Adding())
  }

  // A job being added keeps its poller in the registry.
  ghost predicate Anchored(s: Sched) {
    forall j | j in s.jobs ::
      && (s.jobs[j].serving.HasPoller() ==> s.jobs[j].serving.poller < |s.pollers|)
      && (s.jobs[j].serving.Adding() ==>
            s.jobs[j].chan in s.channels && s.channels[s.jobs[j].chan] == s.jobs[j].serving.poller)
      && (s.jobs[j].watcher.Absent? <==> !s.jobs[j].serving.Watched? && !s.jobs[j].serving.Served?)
      && (s.jobs[j].watcher.Fired? ==> s.jobs[j].canceled)
  }

  // A live job is in its poller's list, once; every list holds only such jobs and
  // canceled ones.
  ghost predicate Placed(s: Sched) {
    && (forall j | j in s.jobs && s.jobs[j].serving.HasPoller() && !s.jobs[j].canceled ::
          s.jobs[j].serving.poller < |s.pollers| && j in s.pollers[s.jobs[j].serving.poller].nodes)
    && (forall p | 0 <= p < |s.pollers| :: Distinct(s.pollers[p].nodes))
    && (forall p, j | 0 <= p < |s.pollers| && j in s.pollers[p].nodes ::
          && j in s.jobs && s.jobs[j].serving.HasPoller() && s.jobs[j].serving.poller == p
          && s.jobs[j].chan == s.pollers[p].chan)
  }

  // Why a poller that is not about to take a new snapshot will do so in time.
  predicate Noticed(s: Sched, p: Pid, j: Job)
    requires p < |s.pollers| && j in s.jobs
  {
    var pc := s.pollers[p].pc;
    pc.Sweeping? || pc.Sleeping? ==>
      || s.pollers[p].wake
      || s.jobs[j].serving.Adding()
      || (j in pc.snapshot && (!s.jobs[j].canceled || s.jobs[j].watcher.Armed?))
  }

  ghost predicate Awake(s: Sched) {
    forall p, j | 0 <= p < |s.pollers| && j in s.pollers[p].nodes :: j in s.jobs && Noticed(s, p, j)
  }

  ghost predicate Inv(s: Sched) {
    Registered(s) && Exclusive(s) && Anchored(s) && Placed(s) && Awake(s)
  }

  lemma RetiringKeepsRegistered(s: Sched, p: Pid)
    requires Registered(s) && Enabled(s, RetireIfEmpty(p))
    ensures Registered(Apply(s, RetireIfEmpty(p)))
  {
  }

  lemma CreatingKeepsRegistered(s: Sched, j: Job)
    requires Registered(s) && Enabled(s, Create(j))
    ensures Registered(Apply(s, Create(j)))
  {
  }

  // A step of one poller that stays what it is.
  predicate OfPoller(step: Step) {
    step.Round? || step.Visit? || step.Slip? || step.Pause? || step.Wake? || step.Timer?
  }

  // A step of one job that leaves the pollers alone.
  predicate OfJob(step: Step) {
    step.Serve? || step.Lock? || step.Watch? || step.Cancel?
  }

  // A poller's own step changes nothing but that poller, and its list only in a round.
  lemma PollerStep(s: Sched, step: Step)
    requires Enabled(s, step) && OfPoller(step)
    ensures var s' := Apply(s, step);
      && step.p < |s.pollers| == |s'.pollers|
      && s' == s.(pollers := s.pollers[step.p := s'.pollers[step.p]])
      && var was, now := s.pollers[step.p], s'.pollers[step.p];
         && now.chan == was.chan && !was.pc.Retired? && !now.pc.Retired?
         && now.nodes == if step.Round? then Filter(was.nodes, LiveJobs(s)) else was.nodes
  {
    hide Filter, LiveJobs;
  }

  lemma JobStep(s: Sched, step: Step)
    requires Enabled(s, step) && OfJob(step)
    ensures var s' := Apply(s, step);
      && step.j in s'.jobs
      && s' == s.(jobs := s.jobs[step.j := s'.jobs[step.j]], mutex := s'.mutex)
      && (step.j in s.jobs ==>
            && s'.jobs[step.j].chan == s.jobs[step.j].chan
            && (s.jobs[step.j].canceled ==> s'.jobs[step.j].canceled)
            && (s'.jobs[step.j].serving.HasPoller() <==> s.jobs[step.j].serving.HasPoller())
            && (s.jobs[step.j].serving.HasPoller() ==>
                  && s'.jobs[step.j].serving.poller == s.jobs[step.j].serving.poller
                  && s'.jobs[step.j].serving.Adding() == s.jobs[step.j].serving.Adding()))
      && (step.j !in s.jobs ==> !s'.jobs[step.j].serving.HasPoller())
  {
  }

  lemma PollingKeepsRegistered(s: Sched, step: Step)
    requires Registered(s) && Enabled(s, step) && OfPoller(step)
    ensures Registered(Apply(s, step))
  {
    PollerStep(s, step);
    if step.Round? {
      assert forall j :: j !in s.pollers[step.p].nodes ==> j !in Apply(s, step).pollers[step.p].nodes;
    }
    hide Apply, Enabled, Filter, LiveJobs;
  }

  lemma AddingKeepsRegistered(s: Sched, step: Step)
    requires Registered(s) && Enabled(s, step) && (step.Append? || step.Signal? || step.WatchFires?)
    requires step.Append? ==> !s.pollers[s.channels[s.jobs[step.j].chan]].pc.Retired?
    ensures Registered(Apply(s, step))
  {
  }

  lemma RegisteredKept(s: Sched, step: Step)
    requires Registered(s) && Enabled(s, step)
    ensures Registered(Apply(s, step))
  {
    if step.RetireIfEmpty? {
      RetiringKeepsRegistered(s, step.p);
    } else if step.Create? {
      CreatingKeepsRegistered(s, step.j);
    } else if OfPoller(step) {
      PollingKeepsRegistered(s, step);
    } else if OfJob(step) {
      JobStep(s, step);
      hide Apply, Enabled;
    } else {
      AddingKeepsRegistered(s, step);
    }
  }

  lemma ExclusiveKept(s: Sched, step: Step)
    requires Exclusive(s) && Enabled(s, step)
    ensures Exclusive(Apply(s, step))
  {
    if OfPoller(step) {
      PollerStep(s, step);
      hide Apply, Enabled;
    } else if OfJob(step) {
      JobKeepsExclusive(s, step);
    } else {
      AddingKeepsExclusive(s, step);
    }
  }

  lemma JobKeepsExclusive(s: Sched, step: Step)
    requires Exclusive(s) && Enabled(s, step) && OfJob(step)
    ensures Exclusive(Apply(s, step))
  {
  }

  lemma AddingKeepsExclusive(s: Sched, step: Step)
    requires Exclusive(s) && Enabled(s, step) && !OfPoller(step) && !OfJob(step)
    ensures Exclusive(Apply(s, step))
  {
  }

  lemma AnchoredKept(s: Sched, step: Step)
    requires Exclusive(s) && Anchored(s) && Enabled(s, step)
    ensures Anchored(Apply(s, step))
  {
    if OfPoller(step) {
      PollerStep(s, step);
      hide Apply, Enabled;
    } else if OfJob(step) {
      JobKeepsAnchored(s, step);
    } else if step.Create? || step.RetireIfEmpty? {
      RegistryKeepsAnchored(s, step);
    } else {
      AddingKeepsAnchored(s, step);
    }
  }

  lemma JobKeepsAnchored(s: Sched, step: Step)
    requires Anchored(s) && Enabled(s, step) && OfJob(step)
    ensures Anchored(Apply(s, step))
  {
  }

  lemma RegistryKeepsAnchored(s: Sched, step: Step)
    requires Exclusive(s) && Anchored(s) && Enabled(s, step) && (step.Create? || step.RetireIfEmpty?)
    ensures Anchored(Apply(s, step))
  {
  }

  lemma AddingKeepsAnchored(s: Sched, step: Step)
    requires Anchored(s) && Enabled(s, step) && (step.Append? || step.Signal? || step.WatchFires?)
    ensures Anchored(Apply(s, step))
  {
  }

  predicate PlacedJob(s: Sched, j: Job)
    requires j in s.jobs
  {
    s.jobs[j].serving.HasPoller() && !s.jobs[j].canceled ==>
      s.jobs[j].serving.poller < |s.pollers| && j in s.pollers[s.jobs[j].serving.poller].nodes
  }

  lemma PollersKeepJobPlaced(s: Sched, step: Step, j: Job)
    requires Enabled(s, step) && (OfPoller(step) || step.RetireIfEmpty?) && j in s.jobs && PlacedJob(s, j)
    ensures j in Apply(s, step).jobs && PlacedJob(Apply(s, step), j)
  {
    if OfPoller(step) {
      PollerStep(s, step);
      hide Apply, Enabled, Filter;
    }
  }

  lemma AddingKeepsJobPlaced(s: Sched, step: Step, j: Job)
    requires Anchored(s) && Enabled(s, step) && !OfPoller(step) && !OfJob(step) && !step.RetireIfEmpty?
    requires j in Apply(s, step).jobs && (j in s.jobs ==> PlacedJob(s, j))
    ensures PlacedJob(Apply(s, step), j)
  {
    hide Filter;
  }

  lemma JobStaysPlaced(s: Sched, step: Step, j: Job)
    requires Anchored(s) && Placed(s) && Enabled(s, step)
    requires j in Apply(s, step).jobs
    ensures PlacedJob(Apply(s, step), j)
  {
    assert j in s.jobs ==> PlacedJob(s, j);
    hide Distinct, Placed;
    if OfPoller(step) || step.RetireIfEmpty? {
      assert j in s.jobs;
      PollersKeepJobPlaced(s, step, j);
    } else if OfJob(step) {
      JobStep(s, step);
      hide Apply, Enabled, Anchored;
    } else {
      AddingKeepsJobPlaced(s, step, j);
    }
  }

  // What a step does to the list of one poller.
  lemma ListAfter(s: Sched, step: Step, p: Pid)
    requires Enabled(s, step) && p < |Apply(s, step).pollers|
    ensures var nodes := Apply(s, step).pollers[p].nodes;
      if step.Create? && p == |s.pollers| then nodes == [step.j]
      else
        && p < |s.pollers|
        && nodes ==
             if step == Round(p) then Filter(s.pollers[p].nodes, LiveJobs(s))
             else if step.Append? && p == s.channels[s.jobs[step.j].chan] then s.pollers[p].nodes + [step.j]
             else s.pollers[p].nodes
  {
    hide Filter, LiveJobs;
    if OfPoller(step) {
      PollerStep(s, step);
      hide Apply, Enabled;
    }
  }

  lemma ListStaysDistinct(s: Sched, step: Step, p: Pid)
    requires Placed(s) && Enabled(s, step) && p < |Apply(s, step).pollers|
    ensures Distinct(Apply(s, step).pollers[p].nodes)
  {
    ListAfter(s, step, p);
    if step == Round(p) {
      FilterKeepsDistinct(s.pollers[p].nodes, LiveJobs(s));
    } else if step.Append? && p == s.channels[s.jobs[step.j].chan] {
      assert step.j !in s.pollers[p].nodes;
    }
    hide Apply, Filter, LiveJobs;
  }

  // What a step leaves of a job that has a poller.
  lemma ServedJobStays(s: Sched, step: Step, j: Job)
    requires Enabled(s, step) && j in s.jobs && s.jobs[j].serving.HasPoller()
    ensures j in Apply(s, step).jobs
    ensures var was, now := s.jobs[j], Apply(s, step).jobs[j];
      now.serving.HasPoller() && now.serving.poller == was.serving.poller && now.chan == was.chan
  {
    if OfPoller(step) {
      PollerStep(s, step);
      hide Apply, Enabled;
    } else if OfJob(step) {
      JobStep(s, step);
      hide Apply, Enabled;
    }
  }

  lemma ChannelsStay(s: Sched, step: Step, p: Pid)
    requires Enabled(s, step) && p < |s.pollers|
    ensures p < |Apply(s, step).pollers| && Apply(s, step).pollers[p].chan == s.pollers[p].chan
  {
    if OfPoller(step) {
      PollerStep(s, step);
      hide Apply, Enabled;
    } else if OfJob(step) {
      JobStep(s, step);
      hide Apply, Enabled;
    }
  }

  predicate Known(s: Sched, p: Pid, j: Job)
    requires p < |s.pollers|
  {
    j in s.jobs && s.jobs[j].serving.HasPoller() && s.jobs[j].serving.poller == p && s.jobs[j].chan == s.pollers[p].chan
  }

  lemma NewMemberIsKnown(s: Sched, step: Step, p: Pid, j: Job)
    requires Registered(s) && Enabled(s, step) && (step == Append(j) || step == Create(j))
    requires p == if step.Append? then s.channels[s.jobs[j].chan] else |s.pollers|
    ensures p < |Apply(s, step).pollers| && Known(Apply(s, step), p, j)
  {
  }

  lemma MemberStaysKnown(s: Sched, step: Step, p: Pid, j: Job)
    requires Registered(s) && Placed(s) && Enabled(s, step)
    requires p < |Apply(s, step).pollers| && j in Apply(s, step).pollers[p].nodes
    ensures Known(Apply(s, step), p, j)
    ensures (p < |s.pollers| && j in s.pollers[p].nodes) || step == Append(j) || step == Create(j)
  {
    ListAfter(s, step, p);
    hide Distinct, LiveJobs, Apply;
    if p < |s.pollers| && j in s.pollers[p].nodes {
      assert Known(s, p, j);
      ServedJobStays(s, step, j);
      ChannelsStay(s, step, p);
      hide Enabled, Registered;
    } else {
      NewMemberIsKnown(s, step, p, j);
    }
  }

  lemma PlacedKept(s: Sched, step: Step)
    requires Registered(s) && Anchored(s) && Placed(s) && Enabled(s, step)
    ensures Placed(Apply(s, step))
  {
    hide Apply, Enabled, Distinct, Registered, Anchored;
    forall j | j in Apply(s, step).jobs && Apply(s, step).jobs[j].serving.HasPoller()
      && !Apply(s, step).jobs[j].canceled
      ensures Apply(s, step).jobs[j].serving.poller < |Apply(s, step).pollers|
      ensures j in Apply(s, step).pollers[Apply(s, step).jobs[j].serving.poller].nodes
    {
      JobStaysPlaced(s, step, j);
    }
    forall p: Pid | p < |Apply(s, step).pollers| ensures Distinct(Apply(s, step).pollers[p].nodes) {
      ListStaysDistinct(s, step, p);
    }
    forall p: Pid, j: Job | p < |Apply(s, step).pollers| && j in Apply(s, step).pollers[p].nodes
      ensures var s' := Apply(s, step);
        j in s'.jobs && s'.jobs[j].serving.HasPoller() && s'.jobs[j].serving.poller == p
          && s'.jobs[j].chan == s'.pollers[p].chan
    {
      MemberStaysKnown(s, step, p, j);
    }
  }

  lemma PollerKeepsNoticed(s: Sched, step: Step, p: Pid, j: Job)
    requires Enabled(s, step) && (OfPoller(step) || step.RetireIfEmpty?)
    requires p < |s.pollers| && j in s.jobs && Noticed(s, p, j)
    ensures p < |Apply(s, step).pollers| && j in Apply(s, step).jobs
    ensures j in Apply(s, step).pollers[p].nodes ==> Noticed(Apply(s, step), p, j)
  {
    if OfPoller(step) && step.p != p {
      PollerStep(s, step);
      hide Apply, Enabled, Filter;
    }
  }

  lemma AddingKeepsNoticed(s: Sched, step: Step, p: Pid, j: Job)
    requires Enabled(s, step) && (step.Create? || step.Append? || step.Signal? || step.WatchFires?)
    requires p < |s.pollers| && j in s.jobs && Noticed(s, p, j)
    requires s.jobs[j].serving.HasPoller() && s.jobs[j].serving.poller == p
    ensures p < |Apply(s, step).pollers| && j in Apply(s, step).jobs
    ensures Noticed(Apply(s, step), p, j)
  {
  }

  lemma JobKeepsNoticed(s: Sched, step: Step, p: Pid, j: Job)
    requires Anchored(s) && Enabled(s, step) && OfJob(step)
    requires p < |s.pollers| && j in s.jobs && Noticed(s, p, j)
    requires s.jobs[j].serving.HasPoller() && s.jobs[j].serving.poller == p
    ensures p < |Apply(s, step).pollers| && j in Apply(s, step).jobs
    ensures Noticed(Apply(s, step), p, j)
  {
  }

  lemma StaysNoticed(s: Sched, step: Step, p: Pid, j: Job)
    requires Anchored(s) && Enabled(s, step)
    requires p < |s.pollers| && j in s.jobs && Noticed(s, p, j)
    requires s.jobs[j].serving.HasPoller() && s.jobs[j].serving.poller == p
    ensures p < |Apply(s, step).pollers| && j in Apply(s, step).jobs
    ensures j in Apply(s, step).pollers[p].nodes ==> Noticed(Apply(s, step), p, j)
  {
    hide Apply, Enabled, Noticed;
    if OfPoller(step) || step.RetireIfEmpty? {
      PollerKeepsNoticed(s, step, p, j);
    } else if OfJob(step) {
      JobKeepsNoticed(s, step, p, j);
    } else {
      AddingKeepsNoticed(s, step, p, j);
    }
  }

  lemma NewcomerIsNoticed(s: Sched, step: Step, p: Pid, j: Job)
    requires Placed(s) && Enabled(s, step) && (step == Append(j) || step == Create(j))
    requires p < |Apply(s, step).pollers| && j in Apply(s, step).pollers[p].nodes
    ensures j in Apply(s, step).jobs && Noticed(Apply(s, step), p, j)
  {
  }

  lemma AwakeKept(s: Sched, step: Step)
    requires Registered(s) && Anchored(s) && Placed(s) && Awake(s) && Enabled(s, step)
    ensures Awake(Apply(s, step))
  {
    hide Apply, Enabled, Distinct, Registered, Anchored, Noticed;
    forall p: Pid, j: Job | p < |Apply(s, step).pollers| && j in Apply(s, step).pollers[p].nodes
      ensures j in Apply(s, step).jobs && Noticed(Apply(s, step), p, j)
    {
      MemberStaysKnown(s, step, p, j);
      if step == Append(j) || step == Create(j) {
        NewcomerIsNoticed(s, step, p, j);
      } else {
        StaysNoticed(s, step, p, j);
      }
    }
  }

  lemma Preserved(s: Sched, step: Step)
    requires Inv(s) && Enabled(s, step)
    ensures Inv(Apply(s, step))
  {
    RegisteredKept(s, step);
    ExclusiveKept(s, step);
    AnchoredKept(s, step);
    PlacedKept(s, step);
    AwakeKept(s, step);
  }

  // ---------- runs ----------

  predicate Initial(s: Sched) {
    s == Sched(map[], None, [], map[])
  }

  datatype Run = First(start: Sched) | Then(run: Run, step: Step) {
    predicate Valid()
      decreases this, 0
    {
      match this
      case First(start) => Initial(start)
      case Then(run, step) => run.Valid() && Enabled(run.Last(), step)
    }

    function Last(): Sched
      requires Valid()
      decreases this, 1
    {
      match this
      case First(start) => start
      case Then(run, step) => Apply(run.Last(), step)
    }

    predicate Extends(earlier: Run) {
      this == earlier || (Then? && run.Extends(earlier))
    }
  }

  lemma {:induction false} Reachable(run: Run)
    requires run.Valid()
    ensures Inv(run.Last())
  {
    if run.Then? {
      Reachable(run.run);
      Preserved(run.run.Last(), run.step);
    }
  }

  predicate Running(s: Sched, p: Pid) {
    p < |s.pollers| && !s.pollers[p].pc.Retired?
  }

  // Never two running pollers on one channel; the one there is is the registered one.
  lemma OnePollerPerChannel(run: Run, p: Pid, q: Pid)
    requires run.Valid() && Running(run.Last(), p) && Running(run.Last(), q)
    requires run.Last().pollers[p].chan == run.Last().pollers[q].chan
    ensures p == q && run.Last().pollers[p].chan in run.Last().channels
    ensures run.Last().channels[run.Last().pollers[p].chan] == p
  {
    hide run.Valid, run.Last;
    Reachable(run);
  }

  // A live job that has been added, or is being added, is in the list of the running
  // poller its channel is mapped at, once, and in no other list.
  lemma LiveJobIsScheduled(run: Run, j: Job)
    requires run.Valid() && j in run.Last().jobs && run.Last().jobs[j].serving.HasPoller()
      && !run.Last().jobs[j].canceled
    ensures run.Last().jobs[j].chan in run.Last().channels
    ensures var s := run.Last();
      var p := s.channels[s.jobs[j].chan];
      && Running(s, p) && j in s.pollers[p].nodes && Distinct(s.pollers[p].nodes)
      && forall q | 0 <= q < |s.pollers| && j in s.pollers[q].nodes :: q == p
  {
    hide run.Valid, run.Last;
    Reachable(run);
  }

  lemma RetiredHasNoJobs(run: Run, p: Pid)
    requires run.Valid() && p < |run.Last().pollers| && run.Last().pollers[p].pc.Retired?
    ensures run.Last().pollers[p].nodes == []
    ensures forall j | j in run.Last().jobs && !run.Last().jobs[j].canceled && run.Last().jobs[j].serving.HasPoller() ::
      run.Last().jobs[j].serving.poller != p
  {
    hide run.Valid, run.Last;
    Reachable(run);
  }

  // A sleeping poller does not sleep through a job it has not seen, nor through a
  // cancellation: a token is waiting for it, or somebody has yet to signal.
  lemma NoLostWakeup(run: Run, p: Pid, j: Job)
    requires run.Valid() && p < |run.Last().pollers| && run.Last().pollers[p].pc.Sleeping?
      && !run.Last().pollers[p].wake
    requires j in run.Last().pollers[p].nodes
    ensures var s := run.Last(); j in s.jobs && (s.jobs[j].serving.Adding() || s.jobs[j].watcher.Armed?)
    ensures j !in run.Last().pollers[p].pc.snapshot ==> run.Last().jobs[j].serving.Adding()
  {
    hide run.Valid, run.Last;
    Reachable(run);
    assert Noticed(run.Last(), p, j);
    assert run.Last().jobs[j].serving.HasPoller();
  }

  // A round takes exactly the live jobs that were added to its poller.
  lemma RoundTakesAllLiveJobs(run: Run, p: Pid, j: Job)
    requires run.Valid() && Enabled(run.Last(), Round(p))
    ensures var s, pc := run.Last(), Apply(run.Last(), Round(p)).pollers[p].pc;
      (pc.Sweeping? && j in pc.snapshot) <==>
        j in s.jobs && !s.jobs[j].canceled && s.jobs[j].serving.HasPoller() && s.jobs[j].serving.poller == p
  {
    hide run.Valid, run.Last;
    Reachable(run);
  }

  // Retirement succeeds exactly when the list is empty at that moment, and takes the
  // channel out of the registry with it.
  lemma RetiresWhenEmpty(run: Run, p: Pid)
    requires run.Valid() && Enabled(run.Last(), RetireIfEmpty(p))
    ensures var s, s' := run.Last(), Apply(run.Last(), RetireIfEmpty(p));
      && (s'.pollers[p].pc.Retired? <==> s.pollers[p].nodes == [])
      && (s'.pollers[p].pc.Retired? <==> s.pollers[p].chan !in s'.channels)
  {
    hide run.Valid, run.Last;
    Reachable(run);
  }

  // The lock is what closes the race: an adder between its append and its signal keeps
  // its poller from retiring.
  lemma AdderBlocksRetirement(run: Run, j: Job)
    requires run.Valid() && j in run.Last().jobs && run.Last().jobs[j].serving.Adding()
    ensures Running(run.Last(), run.Last().jobs[j].serving.poller)
    ensures forall p :: !Enabled(run.Last(), RetireIfEmpty(p))
  {
    hide run.Valid, run.Last;
    Reachable(run);
  }

  // ---------- who sweeps a job ----------

  // A snapshot outlives the list it was taken from.
  function SnapshotOf(pc: Pc): seq<Job> {
    if pc.Sweeping? || pc.Sleeping? then pc.snapshot else []
  }

  predicate ServedBy(s: Sched, j: Job, p: Pid) {
    j in s.jobs && s.jobs[j].serving.HasPoller() && s.jobs[j].serving.poller == p
  }

  ghost predicate SnapshotsAreServed(s: Sched) {
    forall p, j | 0 <= p < |s.pollers| && j in SnapshotOf(s.pollers[p].pc) :: ServedBy(s, j, p)
  }

  // Where the members of a snapshot come from.
  lemma SnapshotAfter(s: Sched, step: Step, p: Pid, j: Job)
    requires Enabled(s, step) && p < |Apply(s, step).pollers| && j in SnapshotOf(Apply(s, step).pollers[p].pc)
    ensures p < |s.pollers|
    ensures j in SnapshotOf(s.pollers[p].pc) || j in s.pollers[p].nodes
  {
    hide LiveJobs;
    if OfPoller(step) && step.p != p {
      PollerStep(s, step);
      hide Apply, Enabled;
    }
  }

  lemma SnapshotsKept(s: Sched, step: Step)
    requires Placed(s) && SnapshotsAreServed(s) && Enabled(s, step)
    ensures SnapshotsAreServed(Apply(s, step))
  {
    hide Apply, Enabled, Distinct, SnapshotOf;
    forall p: Pid, j: Job | p < |Apply(s, step).pollers| && j in SnapshotOf(Apply(s, step).pollers[p].pc)
      ensures ServedBy(Apply(s, step), j, p)
    {
      SnapshotAfter(s, step, p, j);
      assert ServedBy(s, j, p);
      ServedJobStays(s, step, j);
    }
  }

  lemma {:induction false} ReachableSnapshots(run: Run)
    requires run.Valid()
    ensures SnapshotsAreServed(run.Last())
  {
    if run.Then? {
      hide Apply, Enabled, SnapshotsAreServed, Placed, Registered, Exclusive, Anchored, Awake;
      ReachableSnapshots(run.run);
      Reachable(run.run);
      SnapshotsKept(run.run.Last(), run.step);
    } else {
      assert run.Last().pollers == [];
    }
  }

  lemma {:induction false} StaysServed(run: Run, earlier: Run, j: Job, p: Pid)
    requires run.Valid() && earlier.Valid() && run.Extends(earlier) && ServedBy(earlier.Last(), j, p)
    ensures ServedBy(run.Last(), j, p)
  {
    if run != earlier {
      hide Apply, Enabled;
      StaysServed(run.run, earlier, j, p);
      ServedJobStays(run.run.Last(), run.step, j);
    }
  }

  // Only the poller that serves a job ever has it in a snapshot: at any two moments of a
  // run, whoever sweeps the job is the same goroutine.
  lemma OneSweeper(run: Run, earlier: Run, p: Pid, q: Pid, j: Job)
    requires run.Valid() && run.Extends(earlier) && earlier.Valid()
    requires p < |earlier.Last().pollers| && j in SnapshotOf(earlier.Last().pollers[p].pc)
    requires q < |run.Last().pollers| && j in SnapshotOf(run.Last().pollers[q].pc)
    ensures p == q && ServedBy(run.Last(), j, p)
  {
    hide run.Valid, run.Last, SnapshotOf;
    ReachableSnapshots(earlier);
    ReachableSnapshots(run);
    assert ServedBy(earlier.Last(), j, p) && ServedBy(run.Last(), j, q);
    StaysServed(run, earlier, j, p);
  }
}
