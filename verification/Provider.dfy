/** What the provider of one register observes in lib/site/bridge/bridge.go: the channel
    schedulers, the sweeps of one node and the register's mailbox, as one machine. Any
    poller may work on the node while it visits it; that only one ever does is proved,
    not assumed. */
module Provider {
  import opened Options
  import Liveness
  import Mailbox
  import Pollers
  import Rounds

  // One job, one of its registers, and what that register's provider has received.
  datatype State = State(
    job: Rounds.Job, register: nat,
    sched: Pollers.Sched, node: Liveness.Job, box: Mailbox.Box, seen: seq<Liveness.Shown>)

  datatype Step =
    | Schedule(step: Pollers.Step)
    | Work(p: Pollers.Pid, work: Liveness.Step)  // a poller's goroutine in sweep
    | Acknowledge                                // applyRequest, in another goroutine
    | Move(p: Pollers.Pid)                       // the next select of deliverLatest
    | Receive                                    // the provider's goroutine

  // The poller has come to the job in its walk over the snapshot.
  predicate Visits(s: State, p: Pollers.Pid) {
    p < |s.sched.pollers| &&
    match s.sched.pollers[p].pc
    case Sweeping(snapshot, start, offset) =>
      offset < |snapshot| && snapshot[(start + offset) % |snapshot|] == s.job
    case _ => false
  }

  // sweep has returned, or has not been called.
  predicate IsDone(s: State, p: Pollers.Pid) {
    s.node.pc.Resting? && Mailbox.At(s.box, p).Idle?
  }

  predicate Enabled(s: State, step: Step) {
    match step
    case Schedule(step) =>
      Pollers.Enabled(s.sched, step) && (step.Visit? && Visits(s, step.p) ==> IsDone(s, step.p))
    case Work(p, work) =>
      Visits(s, p) && Mailbox.At(s.box, p).Idle? && !work.Acknowledge? && Liveness.Enabled(s.node, work)
    case Acknowledge => true
    case Move(p) => Mailbox.Enabled(s.box, Mailbox.Move(p))
    case Receive =>
      Mailbox.Enabled(s.box, Mailbox.Receive)
      && s.register < |s.node.delivered| && s.box.slot.value < |s.node.delivered[s.register]|
  }

  // A call of deliverLatest for the register.
  predicate Delivers(s: State, work: Liveness.Step)
    requires Liveness.Enabled(s.node, work)
  {
    (work.DeliverValue? || work.DeliverNil?) && s.node.pc.index == s.register
  }

  function Apply(s: State, step: Step): State
    requires Enabled(s, step)
  {
    match step
    case Schedule(step) => s.(sched := Pollers.Apply(s.sched, step))
    case Work(p, work) =>
      s.(node := Liveness.Apply(s.node, work),
         box := if Delivers(s, work) then Mailbox.Apply(s.box, Mailbox.Deliver(p)) else s.box)
    case Acknowledge => s.(node := Liveness.Apply(s.node, Liveness.Acknowledge))
    case Move(p) => s.(box := Mailbox.Apply(s.box, Mailbox.Move(p)))
    case Receive =>
      s.(box := Mailbox.Apply(s.box, Mailbox.Receive),
         seen := s.seen + [s.node.delivered[s.register][s.box.slot.value]])
  }

  predicate Initial(s: State) {
    && Pollers.Initial(s.sched) && Liveness.Initial(s.node) && Mailbox.Initial(s.box)
    && s.register < s.node.registers && s.seen == []
  }

  datatype Run = First(start: State) | Then(run: Run, step: Step) {
    predicate Valid()
      decreases this, 0
    {
      match this
      case First(start) => Initial(start)
      case Then(run, step) => run.Valid() && Enabled(run.Last(), step)
    }

    function Last(): State
      requires Valid()
      decreases this, 1
    {
      match this
      case First(start) => start
      case Then(run, step) => Apply(run.Last(), step)
    }

    // The same run as its three parts see it.
    function OfPollers(): Pollers.Run {
      match this
      case First(start) => Pollers.First(start.sched)
      case Then(run, Schedule(step)) => Pollers.Then(run.OfPollers(), step)
      case Then(run, _) => run.OfPollers()
    }

    function OfNode(): Liveness.Run {
      match this
      case First(start) => Liveness.First(start.node)
      case Then(run, Work(_, work)) => Liveness.Then(run.OfNode(), work)
      case Then(run, Acknowledge) => Liveness.Then(run.OfNode(), Liveness.Acknowledge)
      case Then(run, _) => run.OfNode()
    }

    function OfBox(): Mailbox.Run
      requires Valid()
    {
      match this
      case First(start) => Mailbox.First(start.box)
      case Then(run, Work(p, work)) =>
        if Delivers(run.Last(), work) then Mailbox.Then(run.OfBox(), Mailbox.Deliver(p)) else run.OfBox()
      case Then(run, Move(p)) => Mailbox.Then(run.OfBox(), Mailbox.Move(p))
      case Then(run, Receive) => Mailbox.Then(run.OfBox(), Mailbox.Receive)
      case Then(run, _) => run.OfBox()
    }
  }

  lemma {:induction false} PollersRun(run: Run)
    requires run.Valid()
    ensures run.OfPollers().Valid() && run.OfPollers().Last() == run.Last().sched
  {
    if run.Then? {
      PollersRun(run.run);
      hide Pollers.Apply, Pollers.Enabled, Liveness.Apply, Mailbox.Apply;
    }
  }

  lemma {:induction false} NodeRun(run: Run)
    requires run.Valid()
    ensures run.OfNode().Valid() && run.OfNode().Last() == run.Last().node
  {
    if run.Then? {
      NodeRun(run.run);
      hide Pollers.Apply, Pollers.Enabled, Liveness.Apply, Mailbox.Apply;
    }
  }

  lemma {:induction false} BoxRun(run: Run)
    requires run.Valid()
    ensures run.OfBox().Valid() && run.OfBox().Last() == run.Last().box
  {
    if run.Then? {
      BoxRun(run.run);
      hide Pollers.Apply, Pollers.Enabled, Liveness.Apply, Mailbox.Apply;
    }
  }

  // ---------- there is one producer ----------

  // The job's poller, if it has one, is p.
  predicate Assigned(s: State, p: Pollers.Pid) {
    s.job in s.sched.jobs && s.sched.jobs[s.job].serving.HasPoller() ==> s.sched.jobs[s.job].serving.poller == p
  }

  function AssignedTo(s: State): (p: Pollers.Pid)
    ensures Assigned(s, p)
  {
    if s.job in s.sched.jobs && s.sched.jobs[s.job].serving.HasPoller() then s.sched.jobs[s.job].serving.poller else 0
  }

  lemma AssignedBefore(s: State, step: Step, p: Pollers.Pid)
    requires Enabled(s, step) && Assigned(Apply(s, step), p)
    ensures Assigned(s, p)
  {
    if step.Schedule? && s.job in s.sched.jobs && s.sched.jobs[s.job].serving.HasPoller() {
      Pollers.ServedJobStays(s.sched, step.step, s.job);
    }
    hide Pollers.Apply, Pollers.Enabled, Liveness.Apply, Mailbox.Apply;
  }

  // Whoever sweeps the node is the poller that serves it.
  lemma VisitorServes(run: Run, p: Pollers.Pid)
    requires run.Valid() && Visits(run.Last(), p)
    ensures Pollers.ServedBy(run.Last().sched, run.Last().job, p)
  {
    PollersRun(run);
    hide run.Valid, run.Last, run.OfPollers;
    var sched := run.OfPollers();
    assert run.Last().job in Pollers.SnapshotOf(sched.Last().pollers[p].pc);
    Pollers.OneSweeper(sched, sched, p, p, run.Last().job);
  }

  // So one goroutine only, the job's poller, ever delivers to the register's channel.
  lemma {:induction false} OneProducer(run: Run, p: Pollers.Pid)
    requires run.Valid() && Assigned(run.Last(), p)
    ensures run.OfBox().SingleProducer(p)
  {
    if run.Then? {
      var s, step := run.run.Last(), run.step;
      AssignedBefore(s, step, p);
      OneProducer(run.run, p);
      if step.Work? {
        VisitorServes(run.run, step.p);
      } else if step.Move? {
        BoxRun(run.run);
        Mailbox.Reachable(run.run.OfBox(), p);
      }
      hide Pollers.Apply, Pollers.Enabled, Liveness.Apply, Liveness.Enabled, Mailbox.Apply;
    }
  }

  // ---------- what the provider observes ----------

  // The offers of the mailbox are the deliveries to the register.
  predicate InStep(s: State) {
    s.register < |s.node.delivered| && s.box.offered == |s.node.delivered[s.register]|
  }

  lemma InStepKept(s: State, step: Step)
    requires Enabled(s, step) && InStep(s)
    ensures InStep(Apply(s, step))
    ensures s.node.delivered[s.register] <= Apply(s, step).node.delivered[s.register]
  {
    hide Pollers.Apply, Pollers.Enabled;
  }

  ghost predicate Picks(seen: seq<Liveness.Shown>, at: seq<nat>, given: seq<Liveness.Shown>) {
    |seen| == |at| && forall k | 0 <= k < |at| :: at[k] < |given| && seen[k] == given[at[k]]
  }

  lemma {:induction false} SeenIsReceived(run: Run)
    requires run.Valid()
    ensures var s := run.Last(); InStep(s) && Picks(s.seen, s.box.received, s.node.delivered[s.register])
  {
    if run.Then? {
      SeenIsReceived(run.run);
      InStepKept(run.run.Last(), run.step);
      PicksKept(run.run.Last(), run.step);
    }
  }

  lemma PicksKept(s: State, step: Step)
    requires Enabled(s, step) && InStep(s) && InStep(Apply(s, step))
    requires s.node.delivered[s.register] <= Apply(s, step).node.delivered[s.register]
    requires Picks(s.seen, s.box.received, s.node.delivered[s.register])
    ensures var s' := Apply(s, step); Picks(s'.seen, s'.box.received, s'.node.delivered[s'.register])
  {
    hide Pollers.Apply, Pollers.Enabled, Liveness.Apply, Liveness.Enabled;
  }

  // Some of the values, in their order.
  ghost predicate Subsequence(seen: seq<Liveness.Shown>, given: seq<Liveness.Shown>) {
    exists at: seq<nat> :: Mailbox.Ascending(at) && Picks(seen, at, given)
  }

  function HistoryOf(s: State): seq<Liveness.Shown> {
    Liveness.History(s.node.log, s.register, s.node.threshold)
  }

  // What the provider receives is a subsequence of the register's history, in order and
  // nothing twice: the values of its GETs, and nil each time the node went offline.
  lemma ProviderObservesTheHistory(run: Run)
    requires run.Valid()
    ensures Subsequence(run.Last().seen, HistoryOf(run.Last()))
  {
    var s := run.Last();
    SeenIsReceived(run);
    NodeRun(run);
    BoxRun(run);
    var p := AssignedTo(s);
    OneProducer(run, p);
    hide run.Valid, run.Last, run.OfNode, run.OfBox;
    Liveness.DeliveriesAreTheHistory(run.OfNode(), s.register);
    Mailbox.ReceivedInOrder(run.OfBox(), p);
    hide Liveness.History;
    assert s.node.delivered[s.register] <= HistoryOf(s);
    assert Picks(s.seen, s.box.received, HistoryOf(s));
  }

  // Nothing is on its way from the poller to the channel.
  predicate Settled(s: State) {
    (forall p | p in s.box.pcs :: s.box.pcs[p].Idle?) && Liveness.ToCome(s.node, s.register) == []
  }

  // The value that waits in the channel, or else the one received last.
  function Showing(s: State): Option<Liveness.Shown>
    requires s.register < |s.node.delivered|
    requires s.box.slot.Some? ==> s.box.slot.value < |s.node.delivered[s.register]|
  {
    if s.box.slot.Some? then Some(s.node.delivered[s.register][s.box.slot.value]) else Liveness.Last(s.seen)
  }

  lemma NewestShows(s: State)
    requires InStep(s) && s.box.offered > 0 && Picks(s.seen, s.box.received, s.node.delivered[s.register])
    requires if s.box.slot.Some? then s.box.slot.value == s.box.offered - 1
      else s.box.received != [] && s.box.received[|s.box.received| - 1] == s.box.offered - 1
    ensures s.box.slot.Some? ==> s.box.slot.value < |s.node.delivered[s.register]|
    ensures Showing(s) == Liveness.Last(s.node.delivered[s.register])
  {
  }

  lemma ProviderShowsTheNewest(run: Run)
    requires run.Valid() && Settled(run.Last()) && HistoryOf(run.Last()) != []
    ensures var s := run.Last();
      && s.register < |s.node.delivered|
      && (s.box.slot.Some? ==> s.box.slot.value < |s.node.delivered[s.register]|)
      && Showing(s) == Liveness.Last(HistoryOf(s)) == Liveness.Latest(s.node.log, s.register, s.node.threshold)
  {
    var s := run.Last();
    SeenIsReceived(run);
    NodeRun(run);
    BoxRun(run);
    var p := AssignedTo(s);
    OneProducer(run, p);
    hide run.Valid, run.Last, run.OfNode, run.OfBox;
    Liveness.DeliveriesAreTheHistory(run.OfNode(), s.register);
    assert s.node.delivered[s.register] == HistoryOf(s) by {
      assert s.node.delivered[s.register] + [] == s.node.delivered[s.register];
    }
    hide Liveness.History, Liveness.Latest, Picks, HistoryOf, Liveness.ToCome;
    Mailbox.NewestIsNeverLost(run.OfBox(), p);
    NewestShows(s);
    Liveness.LatestIsNewest(s.node.log, s.register, s.node.threshold);
    NewestOf(s);
  }

  // And the newest of it is never lost: once its delivery has been made, the provider
  // finds it waiting or has received it last, and it is the register's latest decoded
  // GET, or nil after NULL, a value it cannot decode, or going offline since.
  lemma ProviderGetsTheLatest(run: Run)
    requires run.Valid() && Settled(run.Last()) && HistoryOf(run.Last()) != []
    ensures var s := run.Last();
      && s.register < |s.node.delivered|
      && (s.box.slot.Some? ==> s.box.slot.value < |s.node.delivered[s.register]|)
      && Showing(s) == Liveness.Last(HistoryOf(s)) == Liveness.Latest(s.node.log, s.register, s.node.threshold)
    ensures var s := run.Last();
      forall k: nat | Liveness.LatestFor(s.node.log, s.register, s.node.threshold, k) ::
        Showing(s) == Some(if s.node.log[k].GetSucceeded? && s.node.log[k].got.Decoded? then
                             Liveness.Value(s.node.log[k].got.v)
                           else Liveness.Nil)
  {
    ProviderShowsTheNewest(run);
    NodeRun(run);
    hide run.Valid, run.Last, run.OfNode, Settled, Showing, HistoryOf, Liveness.Latest, Liveness.LatestFor;
    Liveness.Reachable(run.OfNode());
    var s := run.Last();
    forall k: nat | Liveness.LatestFor(s.node.log, s.register, s.node.threshold, k)
      ensures k < |s.node.log|
      ensures Showing(s) == Some(if s.node.log[k].GetSucceeded? && s.node.log[k].got.Decoded? then
                                   Liveness.Value(s.node.log[k].got.v)
                                 else Liveness.Nil)
    {
      Liveness.LatestIsThere(s.node.log, s.register, s.node.threshold, k);
      Liveness.LatestIs(s.node.log, s.register, s.node.threshold, k);
    }
  }

  lemma NewestOf(s: State)
    ensures HistoryOf(s) == Liveness.History(s.node.log, s.register, s.node.threshold)
  {
  }
}
