/** Each condition that isolation puts on the link is needed: three runs in which all
    steps but one are prompt, and a reply to the first call completes the second. */
module LinkConditions {
  import opened Channel
  import opened Options
  import opened Turnaround
  import Isolation

  // Two GETs of one register, one attempt each, a 20 ms timeout and no guard.
  const GET := Call(1, 7, Get)
  const ANSWER := Update(11, false)
  const START := Lane(20 * MILLISECOND, 0, {1}, 0, map[], [], None, false, None, 0, map[])
  const RADIO := Radio(0, false, [])

  lemma Extend(run: Run, s: Step, l: Lane)
    requires run.Valid() && Enabled(run.Last(), s) && l == Apply(run.Last(), s)
    ensures Then(run, s).Valid() && Then(run, s).Last() == l
    ensures forall c | run.AllKeep(c) && Keeps(run.Last(), s, c) :: Then(run, s).AllKeep(c)
  {
  }

  // A call that finds the lane free gets as far as its first wait.
  function CallTo(run: Run, t: Tid): Run {
    Then(Then(Then(Then(run, Start(t, GET, false)), TakeGate(t)), Begin(t)), Attempt(t, true))
  }

  function InWait(l: Lane, t: Tid): Lane
    requires l.radio.Some?
  {
    var r := l.radio.value;
    l.(txns := l.txns[t := Txn(GET, false, l.now, Waiting(r, 0, l.now + l.timeout))], gate := false,
       holder := Some(t), base := |l.reqs|, reqs := l.reqs + [Req(t, GET, r, l.now, InFlight)])
  }

  lemma Started(l: Lane, t: Tid)
    requires l.gate && l.radio.Some? && t !in l.txns && 1 in l.known
    ensures Enabled(l, Start(t, GET, false))
    ensures Apply(l, Start(t, GET, false)) == l.(txns := l.txns[t := Txn(GET, false, l.now, Queued)])
  {
  }

  lemma Began(l: Lane, t: Tid, r: RadioId)
    requires t in l.txns && l.txns[t] == Txn(GET, false, l.now, Queued) && l.gate && l.radio == Some(r)
    ensures Enabled(l, TakeGate(t))
    ensures var l1 := Apply(l, TakeGate(t));
      && Enabled(l1, Begin(t))
      && Apply(l1, Begin(t)) == l.(txns := l.txns[t := Txn(GET, false, l.now, LoopHead(r, 0, false))],
                                   gate := false, holder := Some(t), base := |l.reqs|)
  {
  }

  lemma Sent(l: Lane, t: Tid, r: RadioId)
    requires t in l.txns && l.txns[t] == Txn(GET, false, l.now, LoopHead(r, 0, false)) && r in l.radios
    ensures Enabled(l, Attempt(t, true))
    ensures Apply(l, Attempt(t, true)) ==
      l.(txns := l.txns[t := Txn(GET, false, l.now, Waiting(r, 0, l.now + l.timeout))],
         reqs := l.reqs + [Req(t, GET, r, l.now, InFlight)])
  {
  }

  lemma CallToRuns(run: Run, t: Tid)
    requires run.Valid()
    requires var l := run.Last();
      l.gate && l.radio.Some? && l.radio.value in l.radios && t !in l.txns && 1 in l.known
    ensures CallTo(run, t).Valid() && CallTo(run, t).Last() == InWait(run.Last(), t)
    ensures forall c | run.AllKeep(c) :: CallTo(run, t).AllKeep(c)
  {
    hide Enabled, Apply;
    var l := run.Last();
    var r := l.radio.value;
    Started(l, t);
    var l1 := l.(txns := l.txns[t := Txn(GET, false, l.now, Queued)]);
    Extend(run, Start(t, GET, false), l1);
    Began(l1, t, r);
    var run1 := Then(run, Start(t, GET, false));
    Extend(run1, TakeGate(t), Apply(l1, TakeGate(t)));
    var run2 := Then(run1, TakeGate(t));
    var l3 := Apply(run2.Last(), Begin(t));
    Extend(run2, Begin(t), l3);
    Sent(l3, t, r);
    Extend(Then(run2, Begin(t)), Attempt(t, true), InWait(l, t)) by {
      assert l3.txns[t := InWait(l, t).txns[t]] == InWait(l, t).txns;
    }
  }

  // The first call has sent its request and the node has answered it.
  function Answered(): Run {
    Then(Then(CallTo(Then(First(START), AddRadio(0, 0)), 0), NodeReceive(0, ANSWER)), NodeReply(0))
  }

  const AFTER_ANSWER := START.(radios := map[0 := RADIO], radio := Some(0), holder := Some(0),
    reqs := [Req(0, GET, 0, 0, InAir(ANSWER))], txns := map[0 := Txn(GET, false, 0, Waiting(0, 0, 20 * MILLISECOND))])

  lemma FirstRadio()
    ensures var run := Then(First(START), AddRadio(0, 0));
      && run.Valid() && (forall c :: run.AllKeep(c))
      && run.Last() == START.(radios := map[0 := RADIO], radio := Some(0), gate := true)
  {
    var run := First(START);
    assert run.Valid() && run.Last() == START;
    var l := START.(radios := map[0 := RADIO], radio := Some(0), gate := true);
    assert Apply(START, AddRadio(0, 0)).radios == l.radios;
    Extend(run, AddRadio(0, 0), l);
  }

  lemma NodeAnswers(l: Lane)
    requires l.reqs == [Req(0, GET, 0, 0, InFlight)]
    ensures Enabled(l, NodeReceive(0, ANSWER))
    ensures var l1 := Apply(l, NodeReceive(0, ANSWER));
      Enabled(l1, NodeReply(0)) && Apply(l1, NodeReply(0)) == l.(reqs := [Req(0, GET, 0, 0, InAir(ANSWER))])
  {
  }

  lemma AnsweredRuns()
    ensures Answered().Valid() && (forall c :: Answered().AllKeep(c)) && Answered().Last() == AFTER_ANSWER
  {
    hide Enabled, Apply;
    FirstRadio();
    var run := CallTo(Then(First(START), AddRadio(0, 0)), 0);
    CallToRuns(Then(First(START), AddRadio(0, 0)), 0);
    var l := run.Last();
    assert l.txns == AFTER_ANSWER.txns;
    NodeAnswers(l);
    var l1 := Apply(l, NodeReceive(0, ANSWER));
    Extend(run, NodeReceive(0, ANSWER), l1);
    Extend(Then(run, NodeReceive(0, ANSWER)), NodeReply(0), AFTER_ANSWER);
  }

  // The first call waits in vain, drains, and gives up.
  function TimeOut(run: Run): Run {
    Then(Then(Then(Then(run, Tick(20 * MILLISECOND)), WaitExpire(0)), Tick(10 * MILLISECOND)), DrainEnd(0))
  }

  lemma Expired(l: Lane, radio: Radio)
    requires l.now == 0 && l.retries == 0 && 0 in l.radios && l.radios[0] == radio && radio.guard == 0
    requires l.txns == AFTER_ANSWER.txns
    ensures var l1 := l.(now := 20 * MILLISECOND);
      && Enabled(l, Tick(20 * MILLISECOND)) && Apply(l, Tick(20 * MILLISECOND)) == l1
      && Enabled(l1, WaitExpire(0))
      && Apply(l1, WaitExpire(0)) ==
           l1.(txns := map[0 := Txn(GET, false, 0, Draining(0, 30 * MILLISECOND, ReturnExpired))])
  {
    assert l.txns == map[0 := Txn(GET, false, 0, Waiting(0, 0, 20 * MILLISECOND))];
  }

  lemma DrainedOut(l: Lane)
    requires l.now == 20 * MILLISECOND && 0 in l.radios
    requires l.txns == map[0 := Txn(GET, false, 0, Draining(0, 30 * MILLISECOND, ReturnExpired))]
    ensures var l1 := l.(now := 30 * MILLISECOND);
      && Enabled(l, Tick(10 * MILLISECOND)) && Apply(l, Tick(10 * MILLISECOND)) == l1
      && Enabled(l1, DrainEnd(0))
      && (Keeps(l1, DrainEnd(0), DrainFirst) <==> l.radios[0].received == [])
      && Apply(l1, DrainEnd(0)) ==
           l1.(txns := map[0 := Txn(GET, false, 0, Done(Failed(TimedOut)))], gate := true, holder := None)
  {
  }

  function TimedOutLane(l: Lane): Lane {
    l.(now := 30 * MILLISECOND, txns := map[0 := Txn(GET, false, 0, Done(Failed(TimedOut)))], gate := true,
      holder := None)
  }

  lemma TimeOutRuns(run: Run, l: Lane)
    requires run.Valid() && run.Last() == l
    requires l.now == 0 && l.retries == 0 && 0 in l.radios && l.radios[0].guard == 0 && l.txns == AFTER_ANSWER.txns
    ensures TimeOut(run).Valid() && TimeOut(run).Last() == TimedOutLane(l)
    ensures forall c | run.AllKeep(c) && (c.DrainFirst? ==> l.radios[0].received == []) :: TimeOut(run).AllKeep(c)
  {
    hide Enabled, Apply;
    Expired(l, l.radios[0]);
    var l1 := l.(now := 20 * MILLISECOND);
    var run1 := Then(run, Tick(20 * MILLISECOND));
    Extend(run, Tick(20 * MILLISECOND), l1);
    var l2 := Apply(l1, WaitExpire(0));
    var run2 := Then(run1, WaitExpire(0));
    Extend(run1, WaitExpire(0), l2);
    DrainedOut(l2);
    var l3 := Apply(l2, Tick(10 * MILLISECOND));
    var run3 := Then(run2, Tick(10 * MILLISECOND));
    Extend(run2, Tick(10 * MILLISECOND), l3);
    Extend(run3, DrainEnd(0), TimedOutLane(l));
  }

  lemma ReplyHeard(l: Lane, r: RadioId, u: Update)
    requires |l.reqs| > 0 && l.reqs[0].stage == InAir(u) && r in l.radios && !l.radios[r].closed
    ensures Enabled(l, Deliver(0, r))
    ensures var l1 := Apply(l, Deliver(0, r));
      && l1 == l.(reqs := l.reqs[0 := l.reqs[0].(stage := Heard(u))],
                  radios := l.radios[r := l.radios[r].(received := l.radios[r].received + [Reply(0)])])
  {
  }

  // The second call has been completed by the reply to the first.
  predicate Crossed(l: Lane) {
    1 in l.txns &&
    var s := Isolation.Success(l.txns[1].pc);
    s.Some? && s.value.cause < |l.reqs| && l.reqs[s.value.cause].owner == 0 && s.value.update == ANSWER
  }

  lemma TakesTheWrongReply(run: Run, l: Lane, r: RadioId)
    requires run.Valid() && run.Last() == l
    requires 1 in l.txns && l.txns[1].call == GET && l.txns[1].pc.Waiting? && l.txns[1].pc.radio == r
      && l.txns[1].pc.attempt == 0
    requires r in l.radios && l.radios[r].received == [Reply(0)]
    requires |l.reqs| > 0 && l.reqs[0] == Req(0, GET, 0, 0, Heard(ANSWER))
    ensures Then(run, WaitPacket(1)).Valid() && Crossed(Then(run, WaitPacket(1)).Last())
    ensures forall c | run.AllKeep(c) :: Then(run, WaitPacket(1)).AllKeep(c)
  {
  }

  lemma NewRadio(l: Lane)
    requires l == AFTER_ANSWER
    ensures Enabled(l, AddRadio(1, 0))
    ensures Apply(l, AddRadio(1, 0)) == l.(radios := map[0 := RADIO, 1 := RADIO], radio := Some(1))
  {
    assert Apply(l, AddRadio(1, 0)).radios == map[0 := RADIO, 1 := RADIO];
  }

  lemma WithoutTimeliness() returns (run: Run)
    ensures run.Valid() && run.AllKeep(Locality) && run.AllKeep(DrainFirst) && Crossed(run.Last())
  {
    hide Enabled, Apply, Answered, Crossed;
    AnsweredRuns();
    var run1 := TimeOut(Answered());
    TimeOutRuns(Answered(), AFTER_ANSWER);
    CallToRuns(run1, 1);
    var l2 := InWait(TimedOutLane(AFTER_ANSWER), 1);
    ReplyHeard(l2, 0, ANSWER);
    run := Then(CallTo(run1, 1), Deliver(0, 0));
    Extend(CallTo(run1, 1), Deliver(0, 0), Apply(l2, Deliver(0, 0)));
    TakesTheWrongReply(run, run.Last(), 0);
    run := Then(run, WaitPacket(1));
  }

  lemma WithoutDrainFirst() returns (run: Run)
    ensures run.Valid() && run.AllKeep(Locality) && run.AllKeep(Timeliness) && Crossed(run.Last())
  {
    hide Enabled, Apply, Answered, Crossed;
    AnsweredRuns();
    ReplyHeard(AFTER_ANSWER, 0, ANSWER);
    var run1 := Then(Answered(), Deliver(0, 0));
    var l1 := Apply(AFTER_ANSWER, Deliver(0, 0));
    Extend(Answered(), Deliver(0, 0), l1);
    TimeOutRuns(run1, l1);
    CallToRuns(TimeOut(run1), 1);
    run := CallTo(TimeOut(run1), 1);
    TakesTheWrongReply(run, run.Last(), 0);
    run := Then(run, WaitPacket(1));
  }

  lemma WithoutLocality() returns (run: Run)
    ensures run.Valid() && run.AllKeep(Timeliness) && run.AllKeep(DrainFirst) && Crossed(run.Last())
  {
    hide Enabled, Apply, Answered, Crossed;
    AnsweredRuns();
    var l0 := AFTER_ANSWER.(radios := map[0 := RADIO, 1 := RADIO], radio := Some(1));
    var run0 := Then(Answered(), AddRadio(1, 0));
    NewRadio(AFTER_ANSWER);
    Extend(Answered(), AddRadio(1, 0), l0);
    ReplyHeard(l0, 1, ANSWER);
    var run1 := Then(run0, Deliver(0, 1));
    var l1 := Apply(l0, Deliver(0, 1));
    Extend(run0, Deliver(0, 1), l1);
    TimeOutRuns(run1, l1);
    CallToRuns(TimeOut(run1), 1);
    run := CallTo(TimeOut(run1), 1);
    TakesTheWrongReply(run, run.Last(), 1);
    run := Then(run, WaitPacket(1));
  }

  // Without any one of the three conditions, the other two do not isolate calls.
  lemma EachConditionIsNeeded(c: Condition) returns (run: Run)
    ensures run.Valid() && (forall d | d != c :: run.AllKeep(d)) && Crossed(run.Last())
  {
    hide Crossed;
    match c
    case Timeliness => run := WithoutTimeliness();
    case DrainFirst => run := WithoutDrainFirst();
    case Locality => run := WithoutLocality();
  }
}
