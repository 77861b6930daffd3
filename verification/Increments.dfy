/** The packet counters of lib/site/engine/engine.go one atomic Add at a time: the Adds of a
    run in their order, and what the counters show at any moment between two of them. */
module Increments {
  import opened Accounting
  import opened Books
  import opened Channel

  // What inspectPacket makes of a packet from a known source.
  datatype Verdict =
    | BadlyDecoded
    | BadlyTyped
    | Value(isNull: bool, matched: bool)
    | Ack(matched: bool)

  // Its Adds, in the order of its statements.
  function AddsOf(v: Verdict): seq<Counter> {
    match v
    case BadlyDecoded => [RxTotal, InvalidDecode]
    case BadlyTyped => [RxTotal, InvalidType]
    case Value(isNull, matched) =>
      var last := if matched then MatchedValue else OrphanValue;
      if isNull then [RxTotal, RxValid, NullValue, last] else [RxTotal, RxValid, last]
    case Ack(matched) => [RxTotal, RxValid, if matched then MatchedAck else OrphanAck]
  }

  function Judged(reqs: seq<Req>, packet: Packet, matched: bool): Verdict
    requires packet.Reply? ==> packet.rid < |reqs| && reqs[packet.rid].stage.Heard?
  {
    match packet
    case Noise(_, BadVersion) => BadlyDecoded
    case Noise(_, BadType) => BadlyTyped
    case Reply(rid) =>
      if reqs[rid].call.op.Get? then Value(reqs[rid].stage.update.isNull, matched) else Ack(matched)
  }

  // The packet of a node's address that a step inspects, if any.
  function VerdictOf(l: Lane, s: Step, a: Addr): seq<Verdict>
    requires Enabled(l, s)
  {
    if ReadsFrom(l, s, a) then [Judged(l.reqs, Read(l, s).value, s.WaitPacket? && Completes(l, s.t))] else []
  }

  // The packets of a node's address that calls have inspected, in their order.
  ghost function VerdictsOf(run: Run, a: Addr): seq<Verdict>
    requires run.Valid()
  {
    match run
    case First(_) => []
    case Then(earlier, s) => VerdictsOf(earlier, a) + VerdictOf(earlier.Last(), s, a)
  }

  // All the Adds for them, one after the other.
  function Trail(vs: seq<Verdict>): seq<Counter> {
    if vs == [] then [] else Trail(vs[..|vs| - 1]) + AddsOf(vs[|vs| - 1])
  }

  function Once(b: bool): nat {
    if b then 1 else 0
  }

  lemma EachAtMostOnce(v: Verdict, c: Counter)
    ensures multiset(AddsOf(v))[c] == Once(c in AddsOf(v))
  {
  }

  lemma AddsAreShown(reqs: seq<Req>, packet: Packet, matched: bool, c: Counter)
    requires packet.Reply? ==> packet.rid < |reqs| && reqs[packet.rid].stage.Heard?
    ensures c in AddsOf(Judged(reqs, packet, matched)) <==> Shows(reqs, packet, matched, c)
  {
  }

  // The packets that a counter counts.
  function Number(vs: seq<Verdict>, c: Counter): nat {
    if vs == [] then 0 else Number(vs[..|vs| - 1], c) + Once(c in AddsOf(vs[|vs| - 1]))
  }

  lemma {:induction false} TrailHolds(vs: seq<Verdict>, c: Counter)
    ensures multiset(Trail(vs))[c] == Number(vs, c)
  {
    if vs != [] {
      TrailHolds(vs[..|vs| - 1], c);
      EachAtMostOnce(vs[|vs| - 1], c);
      hide AddsOf;
    }
  }

  lemma {:induction false} NumbersAdd(a: seq<Verdict>, b: seq<Verdict>, c: Counter)
    ensures Number(a + b, c) == Number(a, c) + Number(b, c)
  {
    if b == [] {
      assert a + b == a;
    } else {
      NumbersAdd(a, b[..|b| - 1], c);
      assert (a + b)[..|a + b| - 1] == a + b[..|b| - 1];
    }
  }

  lemma VerdictIsShown(l: Lane, s: Step, a: Addr, c: Counter)
    requires Enabled(l, s)
    ensures Number(VerdictOf(l, s, a), c) == if ReadsSuch(l, s, a, c) then 1 else 0
  {
    hide AddsOf, Judged, Shows, Completes;
    if ReadsFrom(l, s, a) {
      AddsAreShown(l.reqs, Read(l, s).value, s.WaitPacket? && Completes(l, s.t), c);
    }
  }

  lemma {:induction false} NumbersAreCounted(run: Run, a: Addr, c: Counter)
    requires run.Valid()
    ensures Number(VerdictsOf(run, a), c) == Packets(run, a, c)
  {
    if run.Then? {
      hide Apply, Enabled, VerdictOf, ReadsSuch;
      NumbersAreCounted(run.run, a, c);
      NumbersAdd(VerdictsOf(run.run, a), VerdictOf(run.run.Last(), run.step, a), c);
      VerdictIsShown(run.run.Last(), run.step, a, c);
    }
  }

  // Between two packets, the counters of a run are what its Adds make of them.
  lemma TrailMakesTheCounters(run: Run, a: Addr, c: Counter)
    requires run.Valid() && a in LedgerOf(run)
    ensures CounterOf(LedgerOf(run)[a].packet, c) == multiset(Trail(VerdictsOf(run, a)))[c]
  {
    hide run.Valid, run.Last, LedgerOf, VerdictsOf, CounterOf, Packets, Trail, Number;
    ReadsAreCounted(run, a, c);
    NumbersAreCounted(run, a, c);
    TrailHolds(VerdictsOf(run, a), c);
  }

  // ---------- moments ----------

  // So many packets have been inspected, and so many Adds made for the next one.
  datatype Moment = Moment(done: nat, adds: nat) {
    predicate In(vs: seq<Verdict>) {
      done <= |vs| && if done == |vs| then adds == 0 else adds < |AddsOf(vs[done])|
    }

    predicate UpTo(later: Moment) {
      done < later.done || (done == later.done && adds <= later.adds)
    }
  }

  function Past(vs: seq<Verdict>, m: Moment): seq<Counter>
    requires m.In(vs)
  {
    Trail(vs[..m.done]) + if m.done < |vs| then AddsOf(vs[m.done])[..m.adds] else []
  }

  // What a counter shows at a moment.
  function At(vs: seq<Verdict>, m: Moment, c: Counter): nat
    requires m.In(vs)
  {
    multiset(Past(vs, m))[c]
  }

  // The VALUEs that do not say NULL.
  function Plain(vs: seq<Verdict>): nat {
    if vs == [] then 0 else Plain(vs[..|vs| - 1]) + Once(vs[|vs| - 1].Value? && !vs[|vs| - 1].isNull)
  }

  // The Adds of one packet that have been made.
  predicate Made(v: Verdict, adds: nat, c: Counter)
    requires adds <= |AddsOf(v)|
  {
    c in AddsOf(v)[..adds]
  }

  lemma MadeAtMostOnce(v: Verdict, adds: nat, c: Counter)
    requires adds <= |AddsOf(v)|
    ensures multiset(AddsOf(v)[..adds])[c] == Once(Made(v, adds, c))
  {
    var cs := AddsOf(v);
    assert cs == cs[..adds] + cs[adds..];
    assert multiset(cs) == multiset(cs[..adds]) + multiset(cs[adds..]);
    EachAtMostOnce(v, c);
  }

  // A counter shows the packets that are through, and one that has got as far.
  lemma CounterAt(vs: seq<Verdict>, m: Moment, c: Counter)
    requires m.In(vs)
    ensures At(vs, m, c) == Number(vs[..m.done], c) + Once(m.done < |vs| && Made(vs[m.done], m.adds, c))
  {
    hide AddsOf, Made;
    TrailHolds(vs[..m.done], c);
    if m.done < |vs| {
      MadeAtMostOnce(vs[m.done], m.adds, c);
    } else {
      assert Past(vs, m) == Trail(vs[..m.done]);
    }
  }

  // The parts of the whole: every packet is one of three, every valid one of four, and
  // every VALUE plain or NULL.
  lemma {:induction false} PartsAddUp(vs: seq<Verdict>)
    ensures Number(vs, RxTotal) == |vs|
    ensures Number(vs, RxTotal) == Number(vs, RxValid) + Number(vs, InvalidDecode) + Number(vs, InvalidType)
    ensures Number(vs, RxValid) ==
      Number(vs, MatchedValue) + Number(vs, OrphanValue) + Number(vs, MatchedAck) + Number(vs, OrphanAck)
    ensures Number(vs, MatchedValue) + Number(vs, OrphanValue) == Plain(vs) + Number(vs, NullValue)
  {
    if vs != [] {
      PartsAddUp(vs[..|vs| - 1]);
      VerdictParts(vs[|vs| - 1]);
      hide AddsOf;
    }
  }

  lemma VerdictParts(v: Verdict)
    ensures Once(RxTotal in AddsOf(v)) == 1
    ensures 1 == Once(RxValid in AddsOf(v)) + Once(InvalidDecode in AddsOf(v)) + Once(InvalidType in AddsOf(v))
    ensures Once(RxValid in AddsOf(v)) ==
      Once(MatchedValue in AddsOf(v)) + Once(OrphanValue in AddsOf(v))
      + Once(MatchedAck in AddsOf(v)) + Once(OrphanAck in AddsOf(v))
    ensures Once(MatchedValue in AddsOf(v)) + Once(OrphanValue in AddsOf(v)) ==
      Once(v.Value? && !v.isNull) + Once(NullValue in AddsOf(v))
  {
  }
}
