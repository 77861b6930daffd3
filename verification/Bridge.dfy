/** The bridge's channel schedulers in the shape of lib/site/bridge/bridge.go. Other
    goroutines take arbitrary steps between two lock sections of a method; every state
    is the end of a run of the schedulers, so what is proved about runs holds of it. */
module Bridge {
  import opened Options
  import opened Pollers
  import opened Rounds

  // The steps of ServeNode for a job.
  predicate Serves(s: Step, j: Job) {
    (s.Serve? && s.j == j) || s == Lock(j) || s == Create(j) || s == Append(j) || s == Watch(j) || s == Signal(j)
  }

  // The steps of a poller's own goroutine.
  predicate Polls(s: Step, p: Pid) {
    s == Round(p) || s == RetireIfEmpty(p) || s == Visit(p) || s == Slip(p) || s == Pause(p) || s == Wake(p)
      || s == Timer(p)
  }

  lemma OthersLeaveServing(s: Sched, step: Step, j: Job)
    requires Enabled(s, step) && !Serves(step, j) && j in s.jobs
    ensures j in Apply(s, step).jobs
    ensures Apply(s, step).jobs[j].serving == s.jobs[j].serving && Apply(s, step).jobs[j].chan == s.jobs[j].chan
  {
  }

  lemma OthersLeavePolling(s: Sched, step: Step, p: Pid)
    requires Enabled(s, step) && !Polls(step, p) && p < |s.pollers|
    ensures p < |Apply(s, step).pollers|
    ensures Apply(s, step).pollers[p].pc == s.pollers[p].pc && Apply(s, step).pollers[p].chan == s.pollers[p].chan
    ensures Apply(s, step).pollers[p].cursor == s.pollers[p].cursor
  {
    if OfPoller(step) {
      PollerStep(s, step);
      hide Apply, Enabled;
    } else if OfJob(step) {
      JobStep(s, step);
      hide Apply, Enabled;
    }
  }

  lemma {:induction false} ExtendsThrough(a: Run, b: Run, c: Run)
    requires b.Extends(a) && c.Extends(b)
    ensures c.Extends(a)
  {
    if c != b {
      ExtendsThrough(a, b, c.run);
    }
  }

  // What the others do before a goroutine's next section, and how its next select ends.
  datatype Turn = Turn(steps: seq<Step>, timerFirst: bool)

  class Bridge {
    var channels: map<Chan, Pid>
    var mutex: Option<Job>
    var pollers: seq<Poller>
    var jobs: map<Job, JobState>
    ghost var run: Run

    function View(): Sched
      reads this
    {
      Sched(channels, mutex, pollers, jobs)
    }

    ghost predicate Valid()
      reads this
    {
      run.Valid() && run.Last() == View()
    }

    constructor ()
      ensures Valid() && run.First?
    {
      channels, mutex, pollers, jobs := map[], None, [], map[];
      new;
      run := First(View());
    }

    ghost method Note(s: Step)
      requires run.Valid() && Enabled(run.Last(), s) && View() == Apply(run.Last(), s)
      modifies this`run
      ensures Valid() && run == Then(old(run), s)
    {
      run := Then(run, s);
    }

    method Take(s: Step)
      requires Valid() && Enabled(View(), s)
      modifies this
      ensures Valid() && run == Then(old(run), s)
    {
      var next := Apply(View(), s);
      channels, mutex, pollers, jobs := next.channels, next.mutex, next.pollers, next.jobs;
      Note(s);
    }

    // ---------- ServeNode ----------

    method InterleaveServing(j: Job, steps: seq<Step>)
      requires Valid() && j in jobs
      modifies this
      ensures Valid() && run.Extends(old(run)) && j in jobs
      ensures jobs[j].serving == old(jobs[j].serving) && jobs[j].chan == old(jobs[j].chan)
    {
      for i := 0 to |steps|
        invariant Valid() && run.Extends(old(run)) && j in jobs
        invariant jobs[j].serving == old(jobs[j].serving) && jobs[j].chan == old(jobs[j].chan)
      {
        if Enabled(View(), steps[i]) && !Serves(steps[i], j) {
          OthersLeaveServing(View(), steps[i], j);
          Take(steps[i]);
        }
      }
    }

    // bridge.mu.Lock(): gives up only when the script of the others ends.
    method LockFor(j: Job, script: seq<Turn>) returns (locked: bool, rest: seq<Turn>)
      requires Valid() && j in jobs && jobs[j].serving.Called?
      modifies this
      ensures Valid() && run.Extends(old(run)) && j in jobs && jobs[j].chan == old(jobs[j].chan)
      ensures if locked then jobs[j].serving.Holding? else jobs[j].serving.Called? && rest == [] && mutex.Some?
    {
      rest := script;
      while rest != [] && mutex.Some?
        invariant Valid() && run.Extends(old(run)) && j in jobs
        invariant jobs[j].chan == old(jobs[j].chan) && jobs[j].serving.Called?
        decreases |rest|
      {
        ghost var before := run;
        InterleaveServing(j, rest[0].steps);
        ExtendsThrough(old(run), before, run);
        rest := rest[1..];
      }
      if mutex.Some? {
        return false, rest;
      }
      mutex := Some(j);
      jobs := jobs[j := jobs[j].(serving := Holding)];
      Note(Lock(j));
      locked := true;
    }

    method StartPoller(j: Job)
      requires Valid() && Enabled(View(), Create(j))
      modifies this
      ensures Valid() && run == Then(old(run), Create(j)) && j in jobs && jobs[j].chan == old(jobs[j].chan)
      ensures jobs[j].serving.Served?
      ensures pollers == old(pollers) + [Poller(jobs[j].chan, [j], 0, false, Rounding)]
      ensures channels == old(channels)[jobs[j].chan := old(|pollers|)] && mutex.None?
    {
      var p := |pollers|;
      pollers := pollers + [Poller(jobs[j].chan, [j], 0, false, Rounding)];
      channels := channels[jobs[j].chan := p];
      jobs := jobs[j := jobs[j].(serving := Served(p), watcher := Armed)];
      mutex := None;
      Note(Create(j));
    }

    // The append under poller.mu.
    method AppendJob(j: Job)
      requires Valid() && Enabled(View(), Append(j))
      modifies this
      ensures Valid() && run == Then(old(run), Append(j)) && j in jobs && jobs[j].chan == old(jobs[j].chan)
      ensures jobs[j].serving.Appended?
      ensures var p := channels[jobs[j].chan];
        pollers == old(pollers)[p := old(pollers)[p].(nodes := old(pollers)[p].nodes + [j])]
      ensures channels == old(channels) && mutex == old(mutex)
    {
      var p := channels[jobs[j].chan];
      pollers := pollers[p := pollers[p].(nodes := pollers[p].nodes + [j])];
      jobs := jobs[j := jobs[j].(serving := Appended(p))];
      Note(Append(j));
    }

    method WatchJob(j: Job)
      requires Valid() && Enabled(View(), Watch(j))
      modifies this
      ensures Valid() && run == Then(old(run), Watch(j)) && j in jobs && jobs[j].chan == old(jobs[j].chan)
      ensures jobs[j].serving.Watched?
    {
      jobs := jobs[j := jobs[j].(serving := Watched(jobs[j].serving.poller), watcher := Armed)];
      Note(Watch(j));
    }

    // The signal, and the unlock of bridge.mu.
    method SignalPoller(j: Job)
      requires Valid() && Enabled(View(), Signal(j))
      modifies this
      ensures Valid() && run == Then(old(run), Signal(j)) && j in jobs && jobs[j].chan == old(jobs[j].chan)
      ensures jobs[j].serving.Served?
      ensures var p := old(jobs[j].serving.poller); p < |pollers| && pollers[p] == old(pollers[p]).(wake := true)
      ensures mutex.None?
    {
      var p := jobs[j].serving.poller;
      pollers := pollers[p := pollers[p].(wake := true)];
      jobs := jobs[j := jobs[j].(serving := Served(p))];
      mutex := None;
      Note(Signal(j));
    }

    method NextTurn(j: Job, script: seq<Turn>) returns (rest: seq<Turn>)
      requires Valid() && j in jobs
      modifies this
      ensures Valid() && run.Extends(old(run)) && j in jobs
      ensures jobs[j].serving == old(jobs[j].serving) && jobs[j].chan == old(jobs[j].chan)
    {
      rest := script;
      if rest != [] {
        InterleaveServing(j, rest[0].steps);
        rest := rest[1..];
      }
    }

    // When it returns, the job, unless canceled, is in the list of the one running
    // poller of its channel.
    method ServeNode(j: Job, chan: Chan, script: seq<Turn>) returns (served: bool)
      requires Valid() && j !in jobs
      modifies this
      ensures Valid() && run.Extends(old(run)) && j in jobs && jobs[j].chan == chan
      ensures if served then jobs[j].serving.Served? else jobs[j].serving.Called? && mutex.Some?
      ensures served && !jobs[j].canceled ==>
        chan in channels && Running(View(), channels[chan]) && j in pollers[channels[chan]].nodes
    {
      jobs := jobs[j := JobState(chan, false, Called, Absent)];
      Note(Serve(j, chan));
      hide run.Valid, run.Last, Apply;
      ghost var called := run;
      var rest;
      served, rest := LockFor(j, script);
      ExtendsThrough(old(run), called, run);
      if !served {
        return;
      }
      if jobs[j].chan !in channels {
        StartPoller(j);
      } else {
        ghost var locked := run;
        AddJob(j, rest);
        ExtendsThrough(old(run), locked, run);
      }
      if !jobs[j].canceled {
        LiveJobIsScheduled(run, j);
      }
    }

    // The whole of add, with bridge.mu held.
    method AddJob(j: Job, script: seq<Turn>)
      requires Valid() && j in jobs && jobs[j].serving.Holding? && jobs[j].chan in channels
      modifies this
      ensures Valid() && run.Extends(old(run)) && j in jobs && jobs[j].chan == old(jobs[j].chan)
        && jobs[j].serving.Served?
    {
      hide run.Valid, run.Last, Apply;
      ChannelsArePollers(run, jobs[j].chan);
      AppendJob(j);
      ghost var before := run;
      var rest := NextTurn(j, script);
      ExtendsThrough(old(run), before, run);
      WatchJob(j);
      before := run;
      rest := NextTurn(j, rest);
      ExtendsThrough(old(run), before, run);
      JobsPollerExists(run, j);
      SignalPoller(j);
    }

    // ---------- the poller's goroutine ----------

    method InterleavePolling(p: Pid, script: seq<Turn>) returns (rest: seq<Turn>)
      requires Valid() && p < |pollers|
      modifies this
      ensures Valid() && run.Extends(old(run)) && p < |pollers| && pollers[p].pc == old(pollers[p].pc)
      ensures rest == if script == [] then [] else script[1..]
      ensures script == [] ==> run == old(run) && pollers == old(pollers) && mutex == old(mutex)
    {
      rest := script;
      if rest != [] {
        var steps := rest[0].steps;
        rest := rest[1..];
        for i := 0 to |steps|
          invariant Valid() && run.Extends(old(run)) && p < |pollers| && pollers[p].pc == old(pollers[p].pc)
        {
          if Enabled(View(), steps[i]) && !Polls(steps[i], p) {
            OthersLeavePolling(View(), steps[i], p);
            Take(steps[i]);
          }
        }
      }
    }

    // The lock section of round; Rounds.ChannelPoller.Compact is its loop.
    method TakeSnapshot(p: Pid)
      requires Valid() && Enabled(View(), Round(p))
      modifies this
      ensures Valid() && run == Then(old(run), Round(p)) && p < |pollers|
      ensures if pollers[p].nodes == [] then pollers[p].pc.Checking?
              else pollers[p].pc.Sweeping? && pollers[p].pc.offset == 0
      ensures pollers[p].wake == old(pollers[p].wake)
    {
      var nodes := Filter(pollers[p].nodes, LiveJobs(View()));
      pollers := pollers[p := pollers[p].(nodes := nodes)];
      if nodes == [] {
        pollers := pollers[p := pollers[p].(pc := Checking)];
      } else {
        var start := pollers[p].cursor % |nodes|;
        pollers := pollers[p := pollers[p].(cursor := start + 1, pc := Sweeping(nodes, start, 0))];
      }
      Note(Round(p));
    }

    method TryToRetire(p: Pid) returns (retired: bool)
      requires Valid() && Enabled(View(), Step.RetireIfEmpty(p))
      modifies this
      ensures Valid() && run == Then(old(run), Step.RetireIfEmpty(p)) && p < |pollers|
      ensures pollers[p].pc == if retired then Retired else Rounding
      ensures (retired <==> old(pollers[p].nodes) == []) && pollers[p].wake == old(pollers[p].wake)
    {
      RunningIsRegistered(run, p);
      var poller := pollers[p];
      retired := poller.chan in channels && channels[poller.chan] == p && poller.nodes == [];
      if retired {
        channels := channels - {poller.chan};
      }
      pollers := pollers[p := poller.(pc := if retired then Retired else Rounding)];
      Note(Step.RetireIfEmpty(p));
    }

    method VisitNext(p: Pid)
      requires Valid() && Enabled(View(), Visit(p))
      modifies this
      ensures Valid() && run == Then(old(run), Visit(p)) && p < |pollers|
      ensures pollers[p].pc == old(pollers[p].pc).(offset := old(pollers[p].pc.offset) + 1)
      ensures pollers[p].wake == old(pollers[p].wake)
    {
      pollers := pollers[p := pollers[p].(pc := pollers[p].pc.(offset := pollers[p].pc.offset + 1))];
      Note(Visit(p));
    }

    // The end of a sweep: the next round at once, or a pause.
    method EndSweep(p: Pid, slipped: bool)
      requires Valid() && Enabled(View(), Pause(p))
      modifies this
      ensures Valid() && run == Then(old(run), if slipped then Slip(p) else Pause(p)) && p < |pollers|
      ensures if slipped then pollers[p].pc.Rounding? else pollers[p].pc.Sleeping?
      ensures pollers[p].wake == old(pollers[p].wake)
    {
      pollers := pollers[p := pollers[p].(pc := if slipped then Rounding else Sleeping(pollers[p].pc.snapshot))];
      Note(if slipped then Slip(p) else Pause(p));
    }

    // The select on the wake token and the timer.
    method WakeUp(p: Pid, byTimer: bool)
      requires Valid() && Enabled(View(), if byTimer then Timer(p) else Wake(p))
      modifies this
      ensures Valid() && run == Then(old(run), if byTimer then Timer(p) else Wake(p)) && p < |pollers|
      ensures pollers[p].pc.Rounding? && pollers[p].wake == (byTimer && old(pollers[p].wake))
    {
      if byTimer {
        pollers := pollers[p := pollers[p].(pc := Rounding)];
      } else {
        pollers := pollers[p := pollers[p].(wake := false, pc := Rounding)];
      }
      Note(if byTimer then Timer(p) else Wake(p));
    }

    // The poller waits: for bridge.mu, or for its wake token and its timer.
    ghost predicate Waits(p: Pid)
      reads this
      requires p < |pollers|
    {
      (pollers[p].pc.Checking? && mutex.Some?) || (pollers[p].pc.Sleeping? && !pollers[p].wake)
    }

    // The loop of a poller. It returns only when the poller has retired, with no job left
    // behind; when the script of the others ends first, the poller is waiting.
    method RunPoller(p: Pid, script: seq<Turn>) returns (returned: bool)
      requires Valid() && p < |pollers| && pollers[p].pc.Rounding?
      modifies this
      ensures Valid() && run.Extends(old(run)) && p < |pollers|
      ensures if returned then pollers[p].pc.Retired? && pollers[p].nodes == [] else Waits(p)
    {
      var rest := script;
      returned := false;
      while pollers[p].pc.Rounding?
        invariant Valid() && run.Extends(old(run)) && p < |pollers|
        invariant if returned then pollers[p].pc.Retired? else pollers[p].pc.Rounding? || Waits(p)
        decreases |rest|, if p < |pollers| && pollers[p].wake then 1 else 0, if pollers[p].pc.Rounding? then 1 else 0
      {
        hide run.Valid, run.Last, Apply;
        ghost var before := run;
        rest := InterleavePolling(p, rest);
        TakeSnapshot(p);
        ExtendsThrough(old(run), before, run);
        ghost var taken := run;
        if pollers[p].pc.Checking? {
          returned, rest := Retire(p, rest);
        } else {
          rest := Sweep(p, rest);
        }
        ExtendsThrough(old(run), taken, run);
      }
      if returned {
        RetiredHasNoJobs(run, p);
      }
    }

    // retireIfEmpty, once bridge.mu is free.
    method Retire(p: Pid, script: seq<Turn>) returns (retired: bool, rest: seq<Turn>)
      requires Valid() && p < |pollers| && pollers[p].pc.Checking? && pollers[p].nodes == []
      modifies this
      ensures Valid() && run.Extends(old(run)) && p < |pollers| && |rest| <= |script|
      ensures if retired then pollers[p].pc.Retired? else Waits(p) || (pollers[p].pc.Rounding? && |rest| < |script|)
      ensures |rest| == |script| ==> pollers[p].wake == old(pollers[p].wake)
    {
      rest := script;
      while mutex.Some?
        invariant Valid() && run.Extends(old(run)) && p < |pollers| && pollers[p].pc.Checking? && |rest| <= |script|
        invariant |rest| == |script| ==> pollers[p].nodes == [] && pollers[p].wake == old(pollers[p].wake)
        decreases |rest|
      {
        if rest == [] {
          return false, rest;
        }
        ghost var before := run;
        rest := InterleavePolling(p, rest);
        ExtendsThrough(old(run), before, run);
      }
      retired := TryToRetire(p);
    }

    // One sweep over the snapshot, and the pause after it.
    method Sweep(p: Pid, script: seq<Turn>) returns (rest: seq<Turn>)
      requires Valid() && p < |pollers| && pollers[p].pc.Sweeping? && pollers[p].pc.offset == 0
      modifies this
      ensures Valid() && run.Extends(old(run)) && p < |pollers| && |rest| <= |script|
      ensures Waits(p) || (pollers[p].pc.Rounding? && (|rest| < |script| || (old(pollers[p].wake) && !pollers[p].wake)))
      ensures |rest| == |script| ==> pollers[p].wake ==> old(pollers[p].wake)
    {
      hide run.Valid, run.Last, Apply, Waits;
      rest := VisitAll(p, script);
      var slipped := |rest| < |script| && rest != [] && rest[0].timerFirst;
      ghost var visited := run;
      EndSweep(p, slipped);
      ExtendsThrough(old(run), visited, run);
      if !slipped {
        ghost var ended := run;
        rest := Sleep(p, rest);
        ExtendsThrough(old(run), ended, run);
      }
    }

    method VisitAll(p: Pid, script: seq<Turn>) returns (rest: seq<Turn>)
      requires Valid() && p < |pollers| && pollers[p].pc.Sweeping?
      modifies this
      ensures Valid() && run.Extends(old(run)) && p < |pollers| && |rest| <= |script| && Enabled(View(), Pause(p))
      ensures |rest| == |script| ==> pollers[p].wake == old(pollers[p].wake)
    {
      hide run.Valid, run.Last, Apply;
      rest := script;
      while pollers[p].pc.offset < |pollers[p].pc.snapshot|
        invariant Valid() && run.Extends(old(run)) && p < |pollers| && |rest| <= |script| && pollers[p].pc.Sweeping?
        invariant |rest| == |script| ==> pollers[p].wake == old(pollers[p].wake)
        decreases |pollers[p].pc.snapshot| - pollers[p].pc.offset
      {
        ghost var before := run;
        rest := InterleavePolling(p, rest);
        VisitNext(p);
        ExtendsThrough(old(run), before, run);
      }
    }

    // The select on the wake token and the timer, until one of them is there.
    method Sleep(p: Pid, script: seq<Turn>) returns (rest: seq<Turn>)
      requires Valid() && p < |pollers| && pollers[p].pc.Sleeping?
      modifies this
      ensures Valid() && run.Extends(old(run)) && p < |pollers| && |rest| <= |script|
      ensures Waits(p) || (pollers[p].pc.Rounding? && (|rest| < |script| || (old(pollers[p].wake) && !pollers[p].wake)))
      ensures |rest| == |script| ==> pollers[p].wake ==> old(pollers[p].wake)
    {
      hide run.Valid, run.Last, Apply;
      rest := script;
      while true
        invariant Valid() && run.Extends(old(run)) && p < |pollers| && |rest| <= |script| && pollers[p].pc.Sleeping?
        invariant |rest| == |script| ==> pollers[p].wake == old(pollers[p].wake)
        decreases |rest|
      {
        var last := rest == [];
        var timerFirst := !last && rest[0].timerFirst;
        ghost var before := run;
        rest := InterleavePolling(p, rest);
        ExtendsThrough(old(run), before, run);
        if timerFirst || pollers[p].wake {
          WakeUp(p, timerFirst);
          return;
        } else if last {
          return;
        }
      }
    }
  }

  lemma RunningIsRegistered(run: Run, p: Pid)
    requires run.Valid() && Running(run.Last(), p)
    ensures var s := run.Last(); s.pollers[p].chan in s.channels && s.channels[s.pollers[p].chan] == p
  {
    hide run.Valid, run.Last;
    Reachable(run);
  }

  lemma ChannelsArePollers(run: Run, c: Chan)
    requires run.Valid() && c in run.Last().channels
    ensures run.Last().channels[c] < |run.Last().pollers|
  {
    hide run.Valid, run.Last;
    Reachable(run);
  }

  lemma JobsPollerExists(run: Run, j: Job)
    requires run.Valid() && j in run.Last().jobs && run.Last().jobs[j].serving.HasPoller()
    ensures run.Last().jobs[j].serving.poller < |run.Last().pollers|
  {
    hide run.Valid, run.Last;
    Reachable(run);
  }
}
