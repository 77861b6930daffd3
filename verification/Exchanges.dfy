/** Runs of one engine with one node and one radio: one GET after the other, each answered
    at once. */
module Exchanges {
  import opened Channel
  import opened Increments
  import opened Options
  import opened Turnaround

  const GET := Call(0, 0, Get)

  // One open radio with nothing in it, and a free gate; each call has sent one request.
  ghost predicate Resting(l: Lane) {
    && 0 in l.known && l.radio == Some(0) && l.gate && l.holder.None?
    && l.radios == map[0 := Radio(0, false, [])]
    && (forall t | t in l.txns :: t < |l.reqs|)
    && (forall i | 0 <= i < |l.reqs| :: l.reqs[i].owner == i)
  }

  // The lane with one more call, which is here in transact and has got here with its
  // request; the reply is on its way to the radio, or waiting there.
  function InCall(l: Lane, pc: Pc, sent: seq<Stage>, received: seq<Packet>): Lane
    requires |sent| <= 1
  {
    var t := |l.reqs|;
    l.(gate := pc.Queued?, holder := if pc.Queued? then None else Some(t), base := if pc.Queued? then l.base else t,
       txns := l.txns[t := Txn(GET, false, l.now, pc)],
       reqs := if sent == [] then l.reqs else l.reqs + [Req(t, GET, 0, l.now, sent[0])],
       radios := map[0 := Radio(0, false, received)])
  }

  function Waits(l: Lane): Pc {
    Waiting(0, 0, l.now + l.timeout)
  }

  // One call moves, or its request does.
  lemma PcMoves(l: Lane, pc: Pc, pc': Pc, sent: seq<Stage>, received: seq<Packet>)
    requires |sent| <= 1 && !pc.Queued? && !pc'.Queued?
    ensures SetPc(InCall(l, pc, sent, received), |l.reqs|, pc') == InCall(l, pc', sent, received)
  {
    var txn, txn' := Txn(GET, false, l.now, pc), Txn(GET, false, l.now, pc');
    assert l.txns[|l.reqs| := txn][|l.reqs| := txn'] == l.txns[|l.reqs| := txn'];
  }

  lemma StageMoves(l: Lane, pc: Pc, stage: Stage, stage': Stage, received: seq<Packet>)
    requires !pc.Queued?
    ensures SetStage(InCall(l, pc, [stage], received), |l.reqs|, stage') == InCall(l, pc, [stage'], received)
  {
    var req, req' := Req(|l.reqs|, GET, 0, l.now, stage), Req(|l.reqs|, GET, 0, l.now, stage');
    assert (l.reqs + [req])[|l.reqs| := req'] == l.reqs + [req'];
  }

  lemma ToTheGate(l: Lane)
    requires Resting(l)
    ensures var t := |l.reqs|;
      && Enabled(l, Start(t, GET, false))
      && Apply(l, Start(t, GET, false)) == InCall(l, Queued, [], [])
      && Enabled(InCall(l, Queued, [], []), TakeGate(t))
      && Apply(InCall(l, Queued, [], []), TakeGate(t)) == InCall(l, Owner, [], [])
  {
    var t := |l.reqs|;
    assert InCall(l, Queued, [], []).txns[t] == Txn(GET, false, l.now, Queued);
  }

  lemma ToTheWait(l: Lane)
    requires Resting(l)
    ensures var t := |l.reqs|;
      && Enabled(InCall(l, Owner, [], []), Begin(t))
      && Apply(InCall(l, Owner, [], []), Begin(t)) == InCall(l, LoopHead(0, 0, false), [], [])
  {
    PcMoves(l, Owner, LoopHead(0, 0, false), [], []);
  }

  lemma ToTheSend(l: Lane)
    requires Resting(l)
    ensures var t, ready := |l.reqs|, InCall(l, LoopHead(0, 0, false), [], []);
      Enabled(ready, Attempt(t, true)) && Apply(ready, Attempt(t, true)) == InCall(l, Waits(l), [InFlight], [])
  {
    var txn, txn' := Txn(GET, false, l.now, LoopHead(0, 0, false)), Txn(GET, false, l.now, Waits(l));
    assert l.txns[|l.reqs| := txn][|l.reqs| := txn'] == l.txns[|l.reqs| := txn'];
  }

  lemma ToTheAir(l: Lane, update: Update)
    requires Resting(l)
    ensures var t := |l.reqs|;
      && Enabled(InCall(l, Waits(l), [InFlight], []), NodeReceive(t, update))
      && Apply(InCall(l, Waits(l), [InFlight], []), NodeReceive(t, update)) == InCall(l, Waits(l), [AtNode(update)], [])
      && Enabled(InCall(l, Waits(l), [AtNode(update)], []), NodeReply(t))
      && Apply(InCall(l, Waits(l), [AtNode(update)], []), NodeReply(t)) == InCall(l, Waits(l), [InAir(update)], [])
  {
    StageMoves(l, Waits(l), InFlight, AtNode(update), []);
    StageMoves(l, Waits(l), AtNode(update), InAir(update), []);
  }

  lemma ToTheRadio(l: Lane, update: Update)
    requires Resting(l)
    ensures var t, inAir := |l.reqs|, InCall(l, Waits(l), [InAir(update)], []);
      Enabled(inAir, Deliver(t, 0)) && Apply(inAir, Deliver(t, 0)) == InCall(l, Waits(l), [Heard(update)], [Reply(t)])
  {
    var t := |l.reqs|;
    StageMoves(l, Waits(l), InAir(update), Heard(update), []);
    assert [] + [Reply(t)] == [Reply(t)];
    assert map[0 := Radio(0, false, [])][0 := Radio(0, false, [Reply(t)])] == map[0 := Radio(0, false, [Reply(t)])];
  }

  // Where the reply leaves the lane.
  function Answered(l: Lane, update: Update): Lane {
    var t := |l.reqs|;
    InCall(l, Done(Succeeded(SuccessFirst, update, t)), [Heard(update)], []).(gate := true, holder := None)
  }

  lemma ToTheEnd(l: Lane, update: Update)
    requires Resting(l)
    ensures var t, waiting := |l.reqs|, InCall(l, Waits(l), [Heard(update)], [Reply(|l.reqs|)]);
      Enabled(waiting, WaitPacket(t)) && Apply(waiting, WaitPacket(t)) == Answered(l, update)
  {
    var t, waiting := |l.reqs|, InCall(l, Waits(l), [Heard(update)], [Reply(|l.reqs|)]);
    var txn, txn' := Txn(GET, false, l.now, Waits(l)), Txn(GET, false, l.now, Done(Succeeded(SuccessFirst, update, t)));
    assert l.txns[t := txn][t := txn'] == l.txns[t := txn'];
    assert map[0 := Radio(0, false, [Reply(t)])][0 := Radio(0, false, [])] == map[0 := Radio(0, false, [])];
    assert [Packet.Reply(t)][1..] == [];
    assert Completes(waiting, t) && Completion(waiting, t) == Succeeded(SuccessFirst, update, t);
  }

  lemma ItsVerdict(l: Lane, update: Update)
    requires var waiting := InCall(l, Waits(l), [Heard(update)], [Reply(|l.reqs|)]); Enabled(waiting,
      WaitPacket(|l.reqs|))
    ensures var waiting := InCall(l, Waits(l), [Heard(update)], [Reply(|l.reqs|)]);
      VerdictOf(waiting, WaitPacket(|l.reqs|), 0) == [Value(update.isNull, true)]
  {
  }

  lemma AtRestAgain(l: Lane, update: Update)
    requires Resting(l)
    ensures Resting(Answered(l, update))
  {
  }

  // A run may take a step that leads there.
  lemma OneMoreStep(run: Run, s: Step, next: Lane)
    requires run.Valid() && Enabled(run.Last(), s) && Apply(run.Last(), s) == next
    ensures Then(run, s).Valid() && Then(run, s).Last() == next
    ensures VerdictsOf(Then(run, s), 0) == VerdictsOf(run, 0) + VerdictOf(run.Last(), s, 0)
    ensures !s.WaitPacket? && !s.DrainPacket? ==> VerdictsOf(Then(run, s), 0) == VerdictsOf(run, 0)
  {
    hide Apply, Enabled;
  }

  // The first radio of an engine with one node.
  lemma OneRadio() returns (run: Run)
    ensures run.Valid() && Resting(run.Last()) && VerdictsOf(run, 0) == []
  {
    var l := Lane(50 * MILLISECOND, 0, {0}, 0, map[], [], None, false, None, 0, map[]);
    run := First(l);
    OneMoreStep(run, AddRadio(0, 0), DoAddRadio(l, 0, 0));
    assert DoAddRadio(l, 0, 0).txns == map[] && DoAddRadio(l, 0, 0).reqs == [];
    run := Then(run, AddRadio(0, 0));
  }

  // A call of Get up to its wait.
  lemma Ask(run: Run) returns (next: Run)
    requires run.Valid() && Resting(run.Last())
    ensures next.Valid() && next.Last() == InCall(run.Last(), Waits(run.Last()), [InFlight], [])
    ensures VerdictsOf(next, 0) == VerdictsOf(run, 0)
  {
    hide Apply, Enabled, run.Valid, run.Last, VerdictsOf, InCall, Resting;
    var l, t := run.Last(), |run.Last().reqs|;
    ToTheGate(l);
    ToTheWait(l);
    ToTheSend(l);
    OneMoreStep(run, Start(t, GET, false), InCall(l, Queued, [], []));
    next := Then(run, Start(t, GET, false));
    OneMoreStep(next, TakeGate(t), InCall(l, Owner, [], []));
    next := Then(next, TakeGate(t));
    OneMoreStep(next, Begin(t), InCall(l, LoopHead(0, 0, false), [], []));
    next := Then(next, Begin(t));
    OneMoreStep(next, Attempt(t, true), InCall(l, Waits(l), [InFlight], []));
    next := Then(next, Attempt(t, true));
  }

  // The reply to it, and its return.
  lemma Respond(run: Run, before: Lane, update: Update) returns (next: Run)
    requires run.Valid() && Resting(before) && run.Last() == InCall(before, Waits(before), [InFlight], [])
    ensures next.Valid() && Resting(next.Last())
    ensures VerdictsOf(next, 0) == VerdictsOf(run, 0) + [Value(update.isNull, true)]
  {
    hide Apply, Enabled, run.Valid, run.Last, VerdictsOf, InCall, Resting;
    var l, t := before, |before.reqs|;
    ToTheAir(l, update);
    ToTheRadio(l, update);
    ToTheEnd(l, update);
    ItsVerdict(l, update);
    AtRestAgain(l, update);
    OneMoreStep(run, NodeReceive(t, update), InCall(l, Waits(l), [AtNode(update)], []));
    next := Then(run, NodeReceive(t, update));
    OneMoreStep(next, NodeReply(t), InCall(l, Waits(l), [InAir(update)], []));
    next := Then(next, NodeReply(t));
    OneMoreStep(next, Deliver(t, 0), InCall(l, Waits(l), [Heard(update)], [Reply(t)]));
    next := Then(next, Deliver(t, 0));
    OneMoreStep(next, WaitPacket(t), Answered(l, update));
    next := Then(next, WaitPacket(t));
  }

  // VALUEs that complete their calls.
  function Matched(nulls: seq<bool>): seq<Verdict> {
    seq(|nulls|, i requires 0 <= i < |nulls| => Value(nulls[i], true))
  }

  lemma OneMoreMatched(nulls: seq<bool>)
    requires nulls != []
    ensures Matched(nulls) == Matched(nulls[..|nulls| - 1]) + [Value(nulls[|nulls| - 1], true)]
  {
  }

  // Any replies, to one GET after the other.
  lemma {:induction false} OneByOne(nulls: seq<bool>) returns (run: Run)
    ensures run.Valid() && Resting(run.Last()) && VerdictsOf(run, 0) == Matched(nulls)
  {
    if nulls == [] {
      run := OneRadio();
    } else {
      hide *;
      var earlier := OneByOne(nulls[..|nulls| - 1]);
      var asked := Ask(earlier);
      run := Respond(asked, earlier.Last(), Update(0, nulls[|nulls| - 1]));
      OneMoreMatched(nulls);
    }
  }
}
