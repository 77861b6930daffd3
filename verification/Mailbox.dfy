/** The latest-value mailbox of lib/site/bridge/bridge.go: a channel with one slot,
    filled by deliverLatest in up to three non-blocking selects while the provider's
    goroutine receives from it. Values are told apart by the number of their offer. */
module Mailbox {
  import opened Options

  type Offer = nat     // an index into the history of calls of deliverLatest
  type Producer = nat  // a goroutine that calls it

  // Which select a call has reached.
  datatype Pc = Idle | Sending(offer: Offer) | Making(offer: Offer) | Retrying(offer: Offer)

  datatype Box = Box(slot: Option<Offer>, offered: nat, received: seq<Offer>, pcs: map<Producer, Pc>)

  datatype Step = Deliver(p: Producer) | Move(p: Producer) | Receive

  function At(b: Box, p: Producer): Pc {
    if p in b.pcs then b.pcs[p] else Idle
  }

  predicate Enabled(b: Box, s: Step) {
    match s
    case Deliver(p) => At(b, p).Idle?
    case Move(p) => !At(b, p).Idle?
    case Receive => b.slot.Some?
  }

  function Apply(b: Box, s: Step): Box
    requires Enabled(b, s)
  {
    match s
    case Deliver(p) => b.(offered := b.offered + 1, pcs := b.pcs[p := Sending(b.offered)])
    case Move(p) =>
      (match At(b, p)
       case Sending(o) =>
         if b.slot.None? then b.(slot := Some(o), pcs := b.pcs[p := Idle]) else b.(pcs := b.pcs[p := Making(o)])
       case Making(o) => b.(slot := None, pcs := b.pcs[p := Retrying(o)])
       case Retrying(o) =>
         if b.slot.None? then b.(slot := Some(o), pcs := b.pcs[p := Idle]) else b.(pcs := b.pcs[p := Idle])
       case Idle => b)
    case Receive => b.(slot := None, received := b.received + [b.slot.value])
  }

  predicate Initial(b: Box) {
    b == Box(None, 0, [], map[])
  }

  datatype Run = First(start: Box) | Then(run: Run, step: Step) {
    predicate Valid()
      decreases this, 0
    {
      match this
      case First(start) => Initial(start)
      case Then(run, step) => run.Valid() && Enabled(run.Last(), step)
    }

    function Last(): Box
      requires Valid()
      decreases this, 1
    {
      match this
      case First(start) => start
      case Then(run, step) => Apply(run.Last(), step)
    }

    // Only one goroutine delivers, as a channel with a single poller has it.
    predicate SingleProducer(p: Producer) {
      Then? ==> run.SingleProducer(p) && (step.Receive? || step.p == p)
    }
  }

  // ---------- any number of producers ----------

  // A call never blocks and makes at most three moves.
  function MovesLeft(pc: Pc): nat {
    match pc
    case Idle => 0
    case Sending(_) => 3
    case Making(_) => 2
    case Retrying(_) => 1
  }

  lemma DeliverLatestNeverBlocks(b: Box, p: Producer, s: Step)
    requires !At(b, p).Idle?
    ensures Enabled(b, Move(p)) && MovesLeft(At(Apply(b, Move(p)), p)) < MovesLeft(At(b, p)) <= 3
    ensures Enabled(b, s) && s != Move(p) ==> At(Apply(b, s), p) == At(b, p)
  {
  }

  // ---------- one producer ----------

  predicate Ascending(s: seq<Offer>) {
    forall i, j | 0 <= i < j < |s| :: s[i] < s[j]
  }

  // What the provider has received or can still receive.
  function Seen(b: Box): seq<Offer> {
    b.received + if b.slot.Some? then [b.slot.value] else []
  }

  // The newest offer has been seen last, or its call is still at work, and then
  // everything seen is older.
  ghost predicate NewestIsAccountedFor(b: Box, p: Producer) {
    && (At(b, p).Idle? ==> b.offered > 0 ==> Seen(b) != [] && Seen(b)[|Seen(b)| - 1] == b.offered - 1)
    && (!At(b, p).Idle? ==> b.offered > 0 && At(b, p).offer == b.offered - 1 && b.offered - 1 !in Seen(b))
  }

  ghost predicate Inv(b: Box, p: Producer) {
    && (forall q | q in b.pcs && q != p :: b.pcs[q].Idle?)
    && Ascending(Seen(b))
    && (forall o | o in Seen(b) :: o < b.offered)
    && NewestIsAccountedFor(b, p)
    && (At(b, p).Retrying? ==> b.slot.None?)
  }

  lemma NewestComesLast(b: Box, p: Producer)
    requires Inv(b, p) && !At(b, p).Idle?
    ensures Ascending(Seen(b) + [b.offered - 1])
  {
    assert forall i | 0 <= i < |Seen(b)| :: Seen(b)[i] in Seen(b);
  }

  lemma SeenAfter(b: Box, p: Producer, s: Step)
    requires Inv(b, p) && Enabled(b, s) && (s.Receive? || s.p == p)
    ensures var b' := Apply(b, s);
      if s.Move? && At(b, p).Making? then Seen(b') == Seen(b)[..|b.received|]
      else if b'.slot == b.slot || s.Receive? then Seen(b') == Seen(b)
      else Seen(b') == Seen(b) + [b.offered - 1] && !At(b, p).Idle? && At(b', p).Idle?
  {
    hide Ascending;
  }

  lemma PrefixOfSeen(b: Box)
    requires Ascending(Seen(b)) && forall o | o in Seen(b) :: o < b.offered
    ensures Ascending(b.received) && forall o | o in b.received :: o in Seen(b)
    ensures Seen(b)[..|b.received|] == b.received
  {
    assert Seen(b)[..|b.received|] == b.received;
    assert forall i | 0 <= i < |b.received| :: b.received[i] == Seen(b)[i];
  }

  lemma OffersStayOld(b: Box, p: Producer, s: Step)
    requires Inv(b, p) && Enabled(b, s) && (s.Receive? || s.p == p)
    ensures Ascending(Seen(Apply(b, s)))
    ensures forall o | o in Seen(Apply(b, s)) :: o < Apply(b, s).offered
  {
    SeenAfter(b, p, s);
    PrefixOfSeen(b);
    if !At(b, p).Idle? {
      NewestComesLast(b, p);
    }
    hide Ascending, Seen;
  }

  lemma ReceiveKeepsNewest(b: Box, p: Producer)
    requires Inv(b, p) && Enabled(b, Receive)
    ensures NewestIsAccountedFor(Apply(b, Receive), p)
  {
    SeenAfter(b, p, Receive);
    hide Ascending, Seen;
  }

  lemma DeliverKeepsNewest(b: Box, p: Producer)
    requires Inv(b, p) && Enabled(b, Deliver(p))
    ensures NewestIsAccountedFor(Apply(b, Deliver(p)), p)
  {
    assert Seen(Apply(b, Deliver(p))) == Seen(b);
    hide Ascending, Seen;
  }

  lemma MoveKeepsNewest(b: Box, p: Producer)
    requires Inv(b, p) && Enabled(b, Move(p))
    ensures NewestIsAccountedFor(Apply(b, Move(p)), p)
  {
    SeenAfter(b, p, Move(p));
    PrefixOfSeen(b);
    hide Ascending, Seen;
  }

  lemma Preserved(b: Box, p: Producer, s: Step)
    requires Inv(b, p) && Enabled(b, s) && (s.Receive? || s.p == p)
    ensures Inv(Apply(b, s), p)
  {
    OffersStayOld(b, p, s);
    match s
    case Receive => ReceiveKeepsNewest(b, p);
    case Deliver(_) => DeliverKeepsNewest(b, p);
    case Move(_) => MoveKeepsNewest(b, p);
    hide Ascending, Seen;
  }

  lemma {:induction false} Reachable(run: Run, p: Producer)
    requires run.Valid() && run.SingleProducer(p)
    ensures Inv(run.Last(), p)
  {
    if run.Then? {
      Reachable(run.run, p);
      Preserved(run.run.Last(), p, run.step);
    }
  }

  // The provider sees a subsequence of the offers, in their order, each at most once.
  lemma ReceivedInOrder(run: Run, p: Producer)
    requires run.Valid() && run.SingleProducer(p)
    ensures Ascending(run.Last().received) && forall o | o in run.Last().received :: o < run.Last().offered
  {
    Reachable(run, p);
    var b := run.Last();
    assert b.received == Seen(b)[..|b.received|];
    assert forall o | o in b.received :: o in Seen(b);
  }

  // Between two deliveries the newest offer is in the box or was the last one received.
  lemma NewestIsNeverLost(run: Run, p: Producer)
    requires run.Valid() && run.SingleProducer(p) && At(run.Last(), p).Idle? && run.Last().offered > 0
    ensures var b := run.Last();
      if b.slot.Some? then b.slot.value == b.offered - 1
      else b.received != [] && b.received[|b.received| - 1] == b.offered - 1
  {
    Reachable(run, p);
  }

  // ---------- two producers ----------

  lemma OneMoreStep(run: Run, step: Step, next: Box)
    requires run.Valid() && Enabled(run.Last(), step) && Apply(run.Last(), step) == next
    ensures Then(run, step).Valid() && Then(run, step).Last() == next
  {
    hide Apply, Enabled;
  }

  // Offer 0 fills the box, and offers 1 and 2 both find it full.
  lemma TwoFindItFull() returns (run: Run)
    ensures run.Valid() && run.Last() == Box(Some(0), 3, [], map[0 := Making(2), 1 := Making(1)])
  {
    var boxes := [
      Box(None, 1, [], map[0 := Sending(0)]), Box(Some(0), 1, [], map[0 := Idle]),
      Box(Some(0), 2, [], map[0 := Idle, 1 := Sending(1)]),
      Box(Some(0), 3, [], map[0 := Sending(2), 1 := Sending(1)]),
      Box(Some(0), 3, [], map[0 := Making(2), 1 := Sending(1)])];
    hide run.Valid, run.Last;
    run := Start();
    OneMoreStep(run, Deliver(0), boxes[0]);
    run := Then(run, Deliver(0));
    OneMoreStep(run, Move(0), boxes[1]);
    run := Then(run, Move(0));
    OneMoreStep(run, Deliver(1), boxes[2]);
    run := Then(run, Deliver(1));
    OneMoreStep(run, Deliver(0), boxes[3]);
    run := Then(run, Deliver(0));
    OneMoreStep(run, Move(0), boxes[4]);
    run := Then(run, Move(0));
    OneMoreStep(run, Move(1), Box(Some(0), 3, [], map[0 := Making(2), 1 := Making(1)]));
    run := Then(run, Move(1));
  }

  lemma Start() returns (run: Run)
    ensures run.Valid() && run.Last() == Box(None, 0, [], map[])
  {
    run := First(Box(None, 0, [], map[]));
  }

  // Both promises rest on the single producer: with two, the newest offer can be lost
  // for good while an older one stays.
  lemma TwoProducersLoseTheNewest() returns (run: Run)
    ensures run.Valid() && forall p :: At(run.Last(), p).Idle?
    ensures run.Last() == Box(Some(1), 3, [], run.Last().pcs)
  {
    hide run.Valid, run.Last;
    run := TwoFindItFull();
    // Offer 2 makes room, and offer 1 takes it.
    OneMoreStep(run, Move(0), Box(None, 3, [], map[0 := Retrying(2), 1 := Making(1)]));
    run := Then(run, Move(0));
    OneMoreStep(run, Move(1), Box(None, 3, [], map[0 := Retrying(2), 1 := Retrying(1)]));
    run := Then(run, Move(1));
    OneMoreStep(run, Move(1), Box(Some(1), 3, [], map[0 := Retrying(2), 1 := Idle]));
    run := Then(run, Move(1));
    OneMoreStep(run, Move(0), Box(Some(1), 3, [], map[0 := Idle, 1 := Idle]));
    run := Then(run, Move(0));
  }

  // ---------- deliverLatest itself ----------

  // The channel with its history; a call of DeliverLatest interleaved with a receiver.
  class OneSlot<T(0)> {
    var slot: Option<T>
    ghost var box: Box
    ghost var offers: seq<T>

    ghost predicate Valid()
      reads this
    {
      && Inv(box, 0) && box.offered == |offers|
      && (slot.Some? <==> box.slot.Some?)
      && (box.slot.Some? ==> box.slot.value < |offers| && slot.value == offers[box.slot.value])
    }

    constructor ()
      ensures Valid() && offers == [] && box.received == [] && At(box, 0).Idle?
    {
      slot, box, offers := None, Box(None, 0, [], map[]), [];
    }

    // The provider's goroutine, if it gets a turn and there is something to receive.
    method MayReceive(turn: bool) returns (value: Option<T>)
      requires Valid()
      modifies this
      ensures Valid() && offers == old(offers) && At(box, 0) == old(At(box, 0)) && box.offered == old(box.offered)
      ensures value == if turn then old(slot) else None
      ensures slot == if turn then None else old(slot)
      ensures box.received == old(box.received) + if value.Some? then [old(box.slot).value] else []
    {
      value := None;
      if turn && slot.Some? {
        Preserved(box, 0, Receive);
        value, slot := slot, None;
        box := Apply(box, Receive);
      }
    }

    // select { case channel <- value: default: }
    method TrySend(value: T) returns (sent: bool)
      requires Valid() && (At(box, 0).Sending? || At(box, 0).Retrying?) && offers != [] && offers[|offers| - 1] == value
      modifies this
      ensures Valid() && box == old(Apply(box, Move(0))) && offers == old(offers)
      ensures sent <==> old(slot).None?
      ensures slot == if sent then Some(value) else old(slot)
    {
      Preserved(box, 0, Move(0));
      hide Ascending;
      sent := slot.None?;
      if sent {
        slot := Some(value);
      }
      box := Apply(box, Move(0));
    }

    // select { case <-channel: default: }
    method MakeRoom()
      requires Valid() && At(box, 0).Making?
      modifies this
      ensures Valid() && box == old(Apply(box, Move(0))) && offers == old(offers) && slot == None
    {
      Preserved(box, 0, Move(0));
      hide Ascending;
      slot := None;
      box := Apply(box, Move(0));
    }

    // The value is the newest offer, and it is in the box or has just been received.
    method DeliverLatest(value: T, turns: seq<bool>)
      requires Valid() && At(box, 0).Idle? && |turns| == 3
      modifies this
      ensures Valid() && At(box, 0).Idle? && offers == old(offers) + [value]
      ensures slot == Some(value)
        || (slot == None && box.received != [] && box.received[|box.received| - 1] == |offers| - 1)
    {
      Preserved(box, 0, Deliver(0));
      box, offers := Apply(box, Deliver(0)), offers + [value];
      hide Ascending;
      var _ := MayReceive(turns[0]);
      var sent := TrySend(value);
      if sent {
        return;
      }
      var _ := MayReceive(turns[1]);
      MakeRoom();
      var _ := MayReceive(turns[2]);
      sent := TrySend(value);
    }
  }
}
