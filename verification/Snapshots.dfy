/** What SnapshotNode in lib/site/engine/metrics.go sees while calls are running: it loads
    one atomic after another, and packets and calls get on between two loads. */
module Snapshots {
  import opened Accounting
  import opened Books
  import opened Channel
  import opened Exchanges
  import opened Increments
  import opened Options
  import Engine
  import Metering
  import Ownership
  import Sets

  // ---------- the packet counters ----------

  // The order in which they are loaded.
  const LOADS: seq<Counter> := Metering.PACKET_LOADS

  predicate InOrder(vs: seq<Verdict>, ms: seq<Moment>) {
    && |ms| == |LOADS|
    && (forall i | 0 <= i < |ms| :: ms[i].In(vs))
    && (forall i, j | 0 <= i < j < |ms| :: ms[i].UpTo(ms[j]))
  }

  // Each counter has been loaded at its moment.
  predicate Seen(p: PacketStats, vs: seq<Verdict>, ms: seq<Moment>) {
    InOrder(vs, ms) && forall i | 0 <= i < |LOADS| :: CounterOf(p, LOADS[i]) == At(vs, ms[i], LOADS[i])
  }

  predicate SaysNull(v: Verdict) {
    v.Value? && v.isNull
  }

  // How far the Adds of a packet have come before its last one.
  lemma HowFar(v: Verdict, adds: nat)
    requires adds < |AddsOf(v)|
    ensures !Made(v, adds, MatchedValue) && !Made(v, adds, OrphanValue)
    ensures !Made(v, adds, MatchedAck) && !Made(v, adds, OrphanAck)
    ensures !Made(v, adds, InvalidDecode) && !Made(v, adds, InvalidType)
    ensures Made(v, adds, RxTotal) <==> adds >= 1
    ensures Made(v, adds, RxValid) <==> adds >= 2
    ensures Made(v, adds, NullValue) <==> adds == 3
    ensures adds == 3 ==> SaysNull(v)
  {
    var cs := AddsOf(v);
    assert cs[..0] == [] && cs[..1] == [cs[0]];
    if adds >= 2 {
      assert cs[..2] == [cs[0], cs[1]];
      if adds == 3 {
        assert cs[..3] == [cs[0], cs[1], cs[2]];
      }
    }
  }

  // What the counters show at a moment.
  lemma ShownAt(vs: seq<Verdict>, m: Moment, c: Counter)
    requires m.In(vs)
    ensures At(vs, m, c) == Number(vs[..m.done], c) +
      Once(match c case RxTotal => m.adds >= 1 case RxValid => m.adds >= 2 case NullValue => m.adds ==
        3 case _ => false)
  {
    hide AddsOf, Made, At;
    CounterAt(vs, m, c);
    if m.done < |vs| {
      HowFar(vs[m.done], m.adds);
    }
  }

  // The NULL VALUEs whose NULL has been counted by the later moment, and which had not
  // been counted as VALUEs by the earlier one.
  function NullsFrom(vs: seq<Verdict>, earlier: Moment, later: Moment): nat
    requires earlier.In(vs) && later.In(vs) && earlier.UpTo(later)
  {
    Number(vs[earlier.done..later.done], NullValue) + Once(later.adds == 3)
  }

  lemma NumberFrom(vs: seq<Verdict>, i: nat, j: nat, c: Counter)
    requires i <= j <= |vs|
    ensures Number(vs[..j], c) == Number(vs[..i], c) + Number(vs[i..j], c)
  {
    NumbersAdd(vs[..i], vs[i..j], c);
    assert vs[..i] + vs[i..j] == vs[..j];
  }

  // NULL VALUEs are published as never more than VALUEs. Loaded one after another, they
  // are more exactly if more NULL VALUEs come between the first load and the last than
  // plain VALUEs had been counted by the first, and orphans between the first two.
  lemma NullLawIff(vs: seq<Verdict>, matched: Moment, orphan: Moment, nulls: Moment)
    requires matched.In(vs) && orphan.In(vs) && nulls.In(vs) && matched.UpTo(orphan) && orphan.UpTo(nulls)
    ensures At(vs, nulls, NullValue) > At(vs, matched, MatchedValue) + At(vs, orphan, OrphanValue) <==>
      NullsFrom(vs, matched, nulls) > Plain(vs[..matched.done]) + Number(vs[matched.done..orphan.done], OrphanValue)
  {
    hide At, Number, Plain;
    ShownAt(vs, nulls, NullValue);
    ShownAt(vs, matched, MatchedValue);
    ShownAt(vs, orphan, OrphanValue);
    NumberFrom(vs, matched.done, nulls.done, NullValue);
    NumberFrom(vs, matched.done, orphan.done, OrphanValue);
    PartsAddUp(vs[..matched.done]);
  }

  // So it is for a snapshot, with the moments at which it has loaded the three counters.
  lemma SnapshotNullLawIff(p: PacketStats, vs: seq<Verdict>, ms: seq<Moment>)
    requires Seen(p, vs, ms)
    ensures p.nullValue > p.matchedValue + p.orphanValue <==>
      NullsFrom(vs, ms[2], ms[6]) > Plain(vs[..ms[2].done]) + Number(vs[ms[2].done..ms[3].done], OrphanValue)
  {
    hide At, Number, Plain, NullsFrom;
    assert LOADS[2] == MatchedValue && LOADS[3] == OrphanValue && LOADS[6] == NullValue;
    assert CounterOf(p, LOADS[2]) == At(vs, ms[2], LOADS[2]) && CounterOf(p, LOADS[3]) == At(vs, ms[3], LOADS[3]);
    assert CounterOf(p, LOADS[6]) == At(vs, ms[6], LOADS[6]);
    NullLawIff(vs, ms[2], ms[3], ms[6]);
  }

  lemma NullIsCounted(v: Verdict)
    ensures NullValue in AddsOf(v) <==> SaysNull(v)
  {
  }

  lemma {:induction false} NoNulls(vs: seq<Verdict>)
    requires forall v | v in vs :: !SaysNull(v)
    ensures Number(vs, NullValue) == 0
  {
    if vs != [] {
      NoNulls(vs[..|vs| - 1]);
      NullIsCounted(vs[|vs| - 1]);
      hide AddsOf, SaysNull;
    }
  }

  // A reader that meets no NULL VALUE under inspection sees the law kept.
  lemma NoNullNoBreach(vs: seq<Verdict>, matched: Moment, orphan: Moment, nulls: Moment)
    requires matched.In(vs) && orphan.In(vs) && nulls.In(vs) && matched.UpTo(orphan) && orphan.UpTo(nulls)
    requires forall i | matched.done <= i <= nulls.done && i < |vs| :: !SaysNull(vs[i])
    ensures At(vs, nulls, NullValue) <= At(vs, matched, MatchedValue) + At(vs, orphan, OrphanValue)
  {
    hide At, Number, Plain;
    NullLawIff(vs, matched, orphan, nulls);
    NoNulls(vs[matched.done..nulls.done]);
    if nulls.adds == 3 {
      HowFar(vs[nulls.done], nulls.adds);
      assert false;
    }
  }

  lemma NumberGrows(vs: seq<Verdict>, i: nat, j: nat, c: Counter)
    requires i <= j <= |vs|
    ensures Number(vs[..i], c) <= Number(vs[..j], c)
  {
    NumberFrom(vs, i, j, c);
  }

  // A whole is loaded before its parts. It may therefore be ahead of them by the one
  // packet that is being inspected, and by no more.
  lemma WholesAreAheadByOne(p: PacketStats, vs: seq<Verdict>, ms: seq<Moment>)
    requires Seen(p, vs, ms)
    ensures p.rxTotal <= p.rxValid + p.badDecode + p.badType + 1
    ensures p.rxValid <= p.matchedValue + p.orphanValue + p.matchedAck + p.orphanAck + 1
  {
    hide At, Number, Plain;
    assert forall i | 0 <= i < |LOADS| :: CounterOf(p, LOADS[i]) == At(vs, ms[i], LOADS[i]);
    forall i | 0 <= i < |LOADS|
      ensures CounterOf(p, LOADS[i]) >= Number(vs[..ms[0].done], LOADS[i])
      ensures i >= 1 ==> CounterOf(p, LOADS[i]) >= Number(vs[..ms[1].done], LOADS[i])
    {
      ShownAt(vs, ms[i], LOADS[i]);
      NumberGrows(vs, ms[0].done, ms[i].done, LOADS[i]);
      if i >= 1 {
        NumberGrows(vs, ms[1].done, ms[i].done, LOADS[i]);
      }
    }
    Wholes(p, vs, ms);
  }

  lemma Wholes(p: PacketStats, vs: seq<Verdict>, ms: seq<Moment>)
    requires Seen(p, vs, ms)
    requires forall i | 0 <= i < |LOADS| :: CounterOf(p, LOADS[i]) >= Number(vs[..ms[0].done], LOADS[i])
    requires forall i | 1 <= i < |LOADS| :: CounterOf(p, LOADS[i]) >= Number(vs[..ms[1].done], LOADS[i])
    ensures p.rxTotal <= p.rxValid + p.badDecode + p.badType + 1
    ensures p.rxValid <= p.matchedValue + p.orphanValue + p.matchedAck + p.orphanAck + 1
  {
    hide At, Number, Plain;
    PartsAddUp(vs[..ms[0].done]);
    PartsAddUp(vs[..ms[1].done]);
    ShownAt(vs, ms[0], LOADS[0]);
    ShownAt(vs, ms[1], LOADS[1]);
    assert LOADS[0] == RxTotal && LOADS[1] == RxValid && LOADS[2] == MatchedValue && LOADS[3] == OrphanValue;
    assert LOADS[4] == MatchedAck && LOADS[5] == OrphanAck && LOADS[7] == InvalidDecode && LOADS[8] == InvalidType;
  }

  // A quiescent reader, between two packets all the time, sees all the identities.
  lemma QuietReaderSeesBalance(p: PacketStats, vs: seq<Verdict>, ms: seq<Moment>)
    requires Seen(p, vs, ms) && ms[0].done == ms[8].done && ms[8].adds == 0
    ensures PacketsBalance(p)
  {
    hide At, Number, Plain;
    var n := ms[0].done;
    forall i | 0 <= i < |LOADS| ensures CounterOf(p, LOADS[i]) == Number(vs[..n], LOADS[i]) {
      assert ms[0].UpTo(ms[i]) || i == 0;
      assert ms[i].UpTo(ms[8]) || i == 8;
      assert ms[i] == Moment(n, 0);
      ShownAt(vs, ms[i], LOADS[i]);
    }
    QuietCounters(p, vs[..n]);
  }

  lemma QuietCounters(p: PacketStats, vs: seq<Verdict>)
    requires forall i | 0 <= i < |LOADS| :: CounterOf(p, LOADS[i]) == Number(vs, LOADS[i])
    ensures PacketsBalance(p)
  {
    hide Number, Plain;
    PartsAddUp(vs);
    assert LOADS[0] == RxTotal && LOADS[1] == RxValid && LOADS[2] == MatchedValue && LOADS[3] == OrphanValue;
    assert LOADS[4] == MatchedAck && LOADS[5] == OrphanAck && LOADS[6] == NullValue;
    assert LOADS[7] == InvalidDecode && LOADS[8] == InvalidType;
  }

  // A reader of one moment finds every whole at most one ahead of its parts, and more
  // NULL VALUEs than VALUEs exactly after the third Add for a NULL VALUE when all VALUEs
  // before it said NULL.
  lemma AtOneMoment(vs: seq<Verdict>, m: Moment)
    requires m.In(vs)
    ensures var total, valid := At(vs, m, RxTotal), At(vs, m, RxValid);
      var values, acks := At(vs, m, MatchedValue) + At(vs, m, OrphanValue),
        At(vs, m, MatchedAck) + At(vs, m, OrphanAck);
      var bad := At(vs, m, InvalidDecode) + At(vs, m, InvalidType);
      && valid + bad <= total <= valid + bad + 1
      && values + acks <= valid <= values + acks + 1
      && (At(vs, m, NullValue) > values <==> m.adds == 3 && Plain(vs[..m.done]) == 0)
  {
    hide At, Number, Plain;
    forall c: Counter {
      ShownAt(vs, m, c);
    }
    PartsAddUp(vs[..m.done]);
  }

  // ---------- the snapshot itself ----------

  // The Adds to packet counters among those to all atomics of a node.
  function PacketAdds(log: seq<Metering.Cell>): seq<Counter> {
    if log == [] then []
    else
      var last := log[|log| - 1];
      PacketAdds(log[..|log| - 1]) + if last.OfPackets? then [last.counter] else []
  }

  lemma {:induction false} PacketAddsAdd(a: seq<Metering.Cell>, b: seq<Metering.Cell>)
    ensures PacketAdds(a + b) == PacketAdds(a) + PacketAdds(b)
  {
    if b == [] {
      assert a + b == a;
    } else {
      PacketAddsAdd(a, b[..|b| - 1]);
      assert (a + b)[..|a + b| - 1] == a + b[..|b| - 1];
    }
  }

  lemma {:induction false} PacketAddsHold(log: seq<Metering.Cell>, c: Counter)
    ensures multiset(log)[Metering.OfPackets(c)] == multiset(PacketAdds(log))[c]
  {
    if log != [] {
      PacketAddsHold(log[..|log| - 1], c);
      assert log == log[..|log| - 1] + [log[|log| - 1]];
    }
  }

  // The moment after so many Adds.
  function MomentAt(vs: seq<Verdict>, n: nat): (m: Moment)
    requires n <= |Trail(vs)|
    ensures m.In(vs)
  {
    if n == |Trail(vs)| then Moment(|vs|, 0)
    else if n >= |Trail(vs[..|vs| - 1])| then Moment(|vs| - 1, n - |Trail(vs[..|vs| - 1])|)
    else MomentAt(vs[..|vs| - 1], n)
  }

  lemma {:induction false} PastOfMoment(vs: seq<Verdict>, n: nat)
    requires n <= |Trail(vs)|
    ensures Past(vs, MomentAt(vs, n)) == Trail(vs)[..n]
  {
    hide AddsOf;
    if n == |Trail(vs)| {
      assert vs[..|vs|] == vs;
    } else if n >= |Trail(vs[..|vs| - 1])| {
    } else {
      var m := MomentAt(vs[..|vs| - 1], n);
      PastOfMoment(vs[..|vs| - 1], n);
      assert vs[..|vs| - 1][..m.done] == vs[..m.done];
    }
  }

  lemma {:induction false} MomentsFollow(vs: seq<Verdict>, i: nat, j: nat)
    requires i <= j <= |Trail(vs)|
    ensures MomentAt(vs, i).UpTo(MomentAt(vs, j))
  {
    if vs != [] && j < |Trail(vs[..|vs| - 1])| {
      MomentsFollow(vs[..|vs| - 1], i, j);
    }
  }

  lemma {:induction false} LogsFollow(before: seq<Metering.Cell>, others: seq<seq<Metering.Cell>>, i: nat, j: nat)
    requires i <= j < |others|
    ensures PacketAdds(Metering.LogAt(before, others, i)) <= PacketAdds(Metering.LogAt(before, others, j))
  {
    if i < j {
      LogsFollow(before, others, i, j - 1);
      Metering.OneMoreBatch(before, others, j);
      assert Metering.LogAt(before, others, j) == Metering.LogAt(before, others, j - 1) + others[j];
      PacketAddsAdd(Metering.LogAt(before, others, j - 1), others[j]);
    }
  }

  // How many of the node's packet Adds had been made by this load.
  function AddsBy(before: seq<Metering.Cell>, others: seq<seq<Metering.Cell>>, i: nat): nat
    requires |others| == Metering.LOADS && i < |LOADS|
  {
    |PacketAdds(Metering.LogAt(before, others, Metering.FIRST_PACKET + i))|
  }

  lemma AddsByLoad(vs: seq<Verdict>, before: seq<Metering.Cell>, others: seq<seq<Metering.Cell>>, i: nat)
    requires |others| == Metering.LOADS && i < |LOADS|
    requires PacketAdds(before + Metering.Flat(others)) <= Trail(vs)
    ensures AddsBy(before, others, i) <= |Trail(vs)|
    ensures PacketAdds(Metering.LogAt(before, others, Metering.FIRST_PACKET + i)) ==
      Trail(vs)[..AddsBy(before, others, i)]
  {
    hide Trail, Metering.Flat, PacketAdds;
    LogsFollow(before, others, Metering.FIRST_PACKET + i, |others| - 1);
    assert others[..|others|] == others;
  }

  // A counter as a snapshot has loaded it.
  predicate LoadedFor(p: PacketStats, before: seq<Metering.Cell>, others: seq<seq<Metering.Cell>>, i: nat)
    requires |others| == Metering.LOADS && i < |LOADS|
  {
    CounterOf(p, LOADS[i]) ==
      multiset(Metering.LogAt(before, others, Metering.FIRST_PACKET + i))[Metering.OfPackets(LOADS[i])]
  }

  lemma LoadIsSeen(p: PacketStats, vs: seq<Verdict>, before: seq<Metering.Cell>, others: seq<seq<Metering.Cell>>,
    i: nat)
    requires |others| == Metering.LOADS && i < |LOADS| && LoadedFor(p, before, others, i)
    requires PacketAdds(before + Metering.Flat(others)) <= Trail(vs)
    ensures AddsBy(before, others, i) <= |Trail(vs)|
    ensures CounterOf(p, LOADS[i]) == At(vs, MomentAt(vs, AddsBy(before, others, i)), LOADS[i])
  {
    hide Trail, Metering.Flat, PacketAdds, Past, MomentAt, CounterOf;
    AddsByLoad(vs, before, others, i);
    PacketAddsHold(Metering.LogAt(before, others, Metering.FIRST_PACKET + i), LOADS[i]);
    PastOfMoment(vs, AddsBy(before, others, i));
  }

  lemma LoadsFollow(vs: seq<Verdict>, before: seq<Metering.Cell>, others: seq<seq<Metering.Cell>>, i: nat, j: nat)
    requires |others| == Metering.LOADS && i < j < |LOADS|
    requires PacketAdds(before + Metering.Flat(others)) <= Trail(vs)
    ensures AddsBy(before, others, i) <= AddsBy(before, others, j) <= |Trail(vs)|
    ensures MomentAt(vs, AddsBy(before, others, i)).UpTo(MomentAt(vs, AddsBy(before, others, j)))
  {
    hide Trail, Metering.Flat, PacketAdds, MomentAt, Metering.LogAt;
    LogsFollow(before, others, Metering.FIRST_PACKET + i, Metering.FIRST_PACKET + j);
    AddsByLoad(vs, before, others, j);
    MomentsFollow(vs, AddsBy(before, others, i), AddsBy(before, others, j));
  }

  lemma PacketsAreLoaded(stats: Metrics, before: seq<Metering.Cell>, others: seq<seq<Metering.Cell>>, i: nat)
    requires |others| == Metering.LOADS && i < |LOADS| && Metering.Shaped(stats)
    requires forall k | 0 <= k < Metering.LOADS ::
      var c := Metering.LoadAt(k);
      Metering.CellOf(stats, c) == multiset(Metering.LogAt(before, others, k))[c]
    ensures LoadedFor(stats.packet, before, others, i)
  {
    hide Metering.LogAt;
    assert Metering.LoadAt(Metering.FIRST_PACKET + i) == Metering.OfPackets(LOADS[i]);
  }

  // What Metering.NodeMetrics.Snapshot has loaded, while the others made these Adds, has
  // been seen at moments of the node's Adds that follow one another.
  lemma SnapshotIsSeen(vs: seq<Verdict>, before: seq<Metering.Cell>, others: seq<seq<Metering.Cell>>, stats: Metrics)
      returns (ms: seq<Moment>)
    requires |others| == Metering.LOADS && Metering.Shaped(stats)
    requires forall k | 0 <= k < Metering.LOADS ::
      var c := Metering.LoadAt(k);
      Metering.CellOf(stats, c) == multiset(Metering.LogAt(before, others, k))[c]
    requires PacketAdds(before + Metering.Flat(others)) <= Trail(vs)
    ensures Seen(stats.packet, vs, ms)
  {
    hide Trail, Metering.Flat, PacketAdds, At, AddsBy, MomentAt, LoadedFor, CounterOf;
    forall i | 0 <= i < |LOADS|
      ensures AddsBy(before, others, i) <= |Trail(vs)|
      ensures CounterOf(stats.packet, LOADS[i]) == At(vs, MomentAt(vs, AddsBy(before, others, i)), LOADS[i])
    {
      PacketsAreLoaded(stats, before, others, i);
      LoadIsSeen(stats.packet, vs, before, others, i);
    }
    ms := seq(|LOADS|, i requires 0 <= i < |LOADS| => MomentAt(vs, AddsBy(before, others, i)));
    forall i, j | 0 <= i < j < |LOADS| ensures ms[i].UpTo(ms[j]) {
      LoadsFollow(vs, before, others, i, j);
    }
  }

  // ---------- runs whose snapshots break the law ----------

  // What is loaded at these moments.
  function LoadedAt(vs: seq<Verdict>, ms: seq<Moment>): PacketStats
    requires InOrder(vs, ms)
  {
    PacketStats(At(vs, ms[0], RxTotal), At(vs, ms[1], RxValid), At(vs, ms[2], MatchedValue),
                At(vs, ms[3], OrphanValue), At(vs, ms[4], MatchedAck), At(vs, ms[5], OrphanAck),
                At(vs, ms[6], NullValue), At(vs, ms[7], InvalidDecode), At(vs, ms[8], InvalidType), 0, 0)
  }

  lemma LoadedIsSeen(vs: seq<Verdict>, ms: seq<Moment>)
    requires InOrder(vs, ms)
    ensures Seen(LoadedAt(vs, ms), vs, ms)
  {
    hide At;
    forall i | 0 <= i < |LOADS| ensures CounterOf(LoadedAt(vs, ms), LOADS[i]) == At(vs, ms[i], LOADS[i]) {
      match LOADS[i]
      case RxTotal | RxValid | MatchedValue | OrphanValue | MatchedAck | OrphanAck | NullValue | InvalidDecode
         | InvalidType =>
    }
  }

  lemma {:induction false} AllCounted(vs: seq<Verdict>, c: Counter)
    requires forall v | v in vs :: c in AddsOf(v)
    ensures Number(vs, c) == |vs|
  {
    hide AddsOf;
    if vs != [] {
      AllCounted(vs[..|vs| - 1], c);
    }
  }

  lemma {:induction false} NoneCounted(vs: seq<Verdict>, c: Counter)
    requires forall v | v in vs :: c !in AddsOf(v)
    ensures Number(vs, c) == 0
  {
    hide AddsOf;
    if vs != [] {
      NoneCounted(vs[..|vs| - 1], c);
    }
  }

  lemma MatchedAreCounted(vs: seq<Verdict>, isNull: bool)
    requires forall v | v in vs :: v == Value(isNull, true)
    ensures Number(vs, RxTotal) == Number(vs, RxValid) == Number(vs, MatchedValue) == |vs|
    ensures Number(vs, OrphanValue) == 0
    ensures Number(vs, NullValue) == if isNull then |vs| else 0
  {
    AllCounted(vs, RxTotal);
    AllCounted(vs, RxValid);
    AllCounted(vs, MatchedValue);
    NoneCounted(vs, OrphanValue);
    if isNull {
      AllCounted(vs, NullValue);
    } else {
      NoneCounted(vs, NullValue);
    }
  }

  function PlainThenNull(plain: nat, nulls: nat): seq<bool> {
    seq(plain + nulls, i => i >= plain)
  }

  lemma BetweenPackets(vs: seq<Verdict>, done: nat)
    requires done <= |vs|
    ensures Moment(done, 0).In(vs)
  {
  }

  lemma MatchedAt(plain: nat, nulls: nat, done: nat, c: Counter)
    requires done == plain || done == plain + nulls
    ensures var vs, m := Matched(PlainThenNull(plain, nulls)), Moment(done, 0);
      && m.In(vs)
      && (c.RxTotal? || c.RxValid? || c.MatchedValue? ==> At(vs, m, c) == done)
      && (c.OrphanValue? ==> At(vs, m, c) == 0)
      && (c.NullValue? ==> At(vs, m, c) == done - plain)
  {
    hide At, AddsOf, Number;
    var vs := Matched(PlainThenNull(plain, nulls));
    MatchedAreCounted(vs[..plain], false);
    MatchedAreCounted(vs[plain..], true);
    NumbersAdd(vs[..plain], vs[plain..], c);
    assert vs[..plain + nulls] == vs[..plain] + vs[plain..];
    BetweenPackets(vs, done);
    ShownAt(vs, Moment(done, 0), c);
  }

  // Two looks at a node that has answered some plain VALUEs, and then as many NULLs.
  function Looks(plain: nat, nulls: nat, early: nat): seq<Moment> {
    seq(|LOADS|, i => Moment(if i < early then plain else plain + nulls, 0))
  }

  lemma TwoLooks(plain: nat, nulls: nat, early: nat) returns (run: Run, p: PacketStats)
    requires early <= |LOADS|
    ensures run.Valid() && VerdictsOf(run, 0) == Matched(PlainThenNull(plain, nulls))
    ensures Seen(p, VerdictsOf(run, 0), Looks(plain, nulls, early))
    ensures forall i | 0 <= i < |LOADS| ::
      var done := if i < early then plain else plain + nulls;
      && (i <= 2 ==> CounterOf(p, LOADS[i]) == done)
      && (i == 3 ==> CounterOf(p, LOADS[i]) == 0)
      && (i == 6 ==> CounterOf(p, LOADS[i]) == done - plain)
  {
    hide run.Valid, run.Last, VerdictsOf, At, AddsOf, Resting, CounterOf, LoadedAt;
    run := OneByOne(PlainThenNull(plain, nulls));
    var vs, ms := Matched(PlainThenNull(plain, nulls)), Looks(plain, nulls, early);
    BetweenPackets(vs, plain);
    BetweenPackets(vs, plain + nulls);
    p := LoadedAt(vs, ms);
    LoadedIsSeen(vs, ms);
    forall i | 0 <= i < |LOADS|
      ensures var done := if i < early then plain else plain + nulls;
        && (i <= 2 ==> CounterOf(p, LOADS[i]) == done)
        && (i == 3 ==> CounterOf(p, LOADS[i]) == 0)
        && (i == 6 ==> CounterOf(p, LOADS[i]) == done - plain)
    {
      MatchedAt(plain, nulls, ms[i].done, LOADS[i]);
    }
  }

  lemma {:induction false} PlainAtFirst(plain: nat, nulls: nat, n: nat)
    requires n <= plain
    ensures Plain(Matched(PlainThenNull(plain, nulls))[..n]) == n
  {
    var vs := Matched(PlainThenNull(plain, nulls))[..n];
    if n > 0 {
      assert vs[..n - 1] == Matched(PlainThenNull(plain, nulls))[..n - 1];
      PlainAtFirst(plain, nulls, n - 1);
    }
  }

  // However many plain VALUEs have come before, a snapshot may show more NULL VALUEs than
  // VALUEs, though each counter is loaded between two packets.
  lemma LiveSnapshotsBreakTheLaw(plain: nat) returns (run: Run, p: PacketStats, ms: seq<Moment>)
    ensures run.Valid() && Seen(p, VerdictsOf(run, 0), ms) && forall m | m in ms :: m.adds == 0
    ensures p.nullValue > p.matchedValue + p.orphanValue && Plain(VerdictsOf(run, 0)[..ms[0].done]) == plain
  {
    hide run.Valid, VerdictsOf, Plain, Matched, Seen;
    run, p := TwoLooks(plain, plain + 1, 4);
    ms := Looks(plain, plain + 1, 4);
    PlainAtFirst(plain, plain + 1, plain);
    assert LOADS[2] == MatchedValue && LOADS[3] == OrphanValue && LOADS[6] == NullValue;
  }

  // And the parts of a whole may be ahead of it by any number.
  lemma PartsRunAhead(n: nat) returns (run: Run, p: PacketStats, ms: seq<Moment>)
    ensures run.Valid() && Seen(p, VerdictsOf(run, 0), ms) && forall m | m in ms :: m.adds == 0
    ensures p.rxValid == p.rxTotal + n
  {
    hide run.Valid, VerdictsOf, Matched, Seen;
    run, p := TwoLooks(0, n, 1);
    ms := Looks(0, n, 1);
    assert LOADS[0] == RxTotal && LOADS[1] == RxValid;
  }

  // ---------- outcomes and initial attempts ----------

  // The order in which the outcomes of an operation are loaded; its initial attempts follow.
  const OUTCOME_LOADS: seq<Outcome> := Metering.OUTCOME_LOADS

  // The run up to each of these loads, and up to that of the initial attempts.
  ghost predicate Lookups(run: Run, at: seq<Run>) {
    && run.Valid() && |at| == |OUTCOME_LOADS|
    && (forall i | 0 <= i < |at| :: at[i].Valid() && run.Extends(at[i]))
    && (forall i, j | 0 <= i < j < |at| :: at[j].Extends(at[i]))
  }

  // A record stays, and with it the call.
  lemma {:induction false} RecordsStay(run: Run, earlier: Run, a: Addr, isGet: bool, o: Outcome, t: Tid)
    requires run.Valid() && earlier.Valid() && run.Extends(earlier) && t in Tally(earlier.Last(), a, isGet, o)
    ensures t in Tally(run.Last(), a, isGet, o)
  {
    if run != earlier {
      hide Apply, Enabled, Noted, Counts;
      RecordsStay(run.run, earlier, a, isGet, o, t);
      TallyMembers(run.run.Last(), run.step, a, isGet, o, t);
    }
  }

  lemma {:induction false} KnownStays(run: Run, earlier: Run, a: Addr)
    requires run.Valid() && earlier.Valid() && run.Extends(earlier)
    ensures a in LedgerOf(run) <==> a in LedgerOf(earlier)
  {
    if run != earlier {
      hide Apply, Enabled, Count;
      KnownStays(run.run, earlier, a);
      KeysStay(run.run.Last(), LedgerOf(run.run), run.step);
    }
  }

  // The calls whose outcome has been seen.
  ghost function SeenOf(at: seq<Run>, i: nat, a: Addr, isGet: bool): set<Tid>
    requires i < |at| == |OUTCOME_LOADS| && at[i].Valid()
  {
    Tally(at[i].Last(), a, isGet, OUTCOME_LOADS[i])
  }

  ghost function SeenCalls(run: Run, at: seq<Run>, a: Addr, isGet: bool): set<Tid>
    requires Lookups(run, at)
  {
    SeenOf(at, 0, a, isGet) + SeenOf(at, 1, a, isGet) + SeenOf(at, 2, a, isGet)
    + SeenOf(at, 3, a, isGet) + SeenOf(at, 4, a, isGet) + SeenOf(at, 5, a, isGet)
  }

  lemma SeenOnce(run: Run, at: seq<Run>, i: nat, j: nat, a: Addr, isGet: bool)
    requires Lookups(run, at) && i < j < |at|
    ensures SeenOf(at, i, a, isGet) !! SeenOf(at, j, a, isGet)
  {
    hide Tally, run.Last, run.Valid;
    if t :| t in SeenOf(at, i, a, isGet) && t in SeenOf(at, j, a, isGet) {
      assert OUTCOME_LOADS[i] != OUTCOME_LOADS[j];
      RecordsStay(at[j], at[i], a, isGet, OUTCOME_LOADS[i], t);
      FinishedOnce(at[j].Last(), a, isGet, t);
      assert false;
    }
  }

  function Shown(st: OpStats, o: Outcome): nat {
    if o in st.outcomes then st.outcomes[o] else 0
  }

  // The outcome as it has been loaded.
  ghost function Loaded(run: Run, at: seq<Run>, i: nat, a: Addr, isGet: bool): nat
    requires Lookups(run, at) && i < |at| && a in LedgerOf(run)
  {
    KnownStays(run, at[i], a);
    Shown(LedgerOf(at[i])[a].Of(isGet), OUTCOME_LOADS[i])
  }

  lemma LoadShowsCalls(run: Run, at: seq<Run>, i: nat, a: Addr, isGet: bool)
    requires Lookups(run, at) && i < |at| && a in LedgerOf(run)
    ensures Loaded(run, at, i, a, isGet) == |SeenOf(at, i, a, isGet)|
  {
    hide run.Valid, run.Last, LedgerOf, Tally, Tried, SendsFor, Paced;
    KnownStays(run, at[i], a);
    BooksAlwaysBalance(at[i], a);
  }

  ghost function AllLoaded(run: Run, at: seq<Run>, a: Addr, isGet: bool): nat
    requires Lookups(run, at) && a in LedgerOf(run)
  {
    Loaded(run, at, 0, a, isGet) + Loaded(run, at, 1, a, isGet) + Loaded(run, at, 2, a, isGet)
    + Loaded(run, at, 3, a, isGet) + Loaded(run, at, 4, a, isGet) + Loaded(run, at, 5, a, isGet)
  }

  lemma AllLoadedAreSeen(run: Run, at: seq<Run>, a: Addr, isGet: bool)
    requires Lookups(run, at) && a in LedgerOf(run)
    ensures AllLoaded(run, at, a, isGet) == |SeenCalls(run, at, a, isGet)|
  {
    hide Loaded, SeenOf, LedgerOf;
    forall i | 0 <= i < |at| {
      LoadShowsCalls(run, at, i, a, isGet);
    }
    forall i, j | 0 <= i < j < |at| {
      SeenOnce(run, at, i, j, a, isGet);
    }
    Sets.SixParts(SeenCalls(run, at, a, isGet), SeenOf(at, 0, a, isGet), SeenOf(at, 1, a, isGet),
      SeenOf(at, 2, a, isGet), SeenOf(at, 3, a, isGet), SeenOf(at, 4, a, isGet), SeenOf(at, 5, a, isGet));
  }

  // Initial attempts are published as never more than outcomes. Loaded one after another
  // they are more exactly if there are more calls that have tried by the last load without
  // having shown an outcome than calls that have shown one without trying.
  lemma InitialLawIff(run: Run, at: seq<Run>, a: Addr, isGet: bool)
    requires Lookups(run, at) && a in LedgerOf(run)
    ensures var tried, seen := Tried(run.Last(), a, isGet), SeenCalls(run, at, a, isGet);
      LedgerOf(run)[a].Of(isGet).initial > AllLoaded(run, at, a, isGet) <==> |tried - seen| > |seen - tried|
  {
    hide run.Valid, run.Last, LedgerOf, Tried, SeenCalls, AllLoaded, Tally, SendsFor, Paced;
    SendsAreCounted(run, a);
    AllLoadedAreSeen(run, at, a, isGet);
    Sets.Differences(Tried(run.Last(), a, isGet), SeenCalls(run, at, a, isGet));
  }

  // At one moment this is so exactly while the lane's owner has tried and has no outcome
  // yet, provided that every call with an outcome has tried too.
  lemma InitialsExceedIff(run: Run, a: Addr, isGet: bool)
    requires run.Valid() && a in LedgerOf(run)
    ensures var l, st := run.Last(), LedgerOf(run)[a].Of(isGet);
      && st.outcomes.Keys == OUTCOMES
      && (st.initial > Total(st.outcomes) <==>
            Unrecorded(l, a, isGet) && l.holder.value in Tried(l, a, isGet)
            && Finished(l, a, isGet) <= Tried(l, a, isGet))
  {
    hide run.Valid, run.Last, LedgerOf, Tried, Tally, SendsFor, Paced, Finished, Ownership.Inv;
    var l := run.Last();
    BooksAlwaysBalance(run, a);
    OutcomesPartition(l, a, isGet);
    Ownership.Reachable(run);
    if Unrecorded(l, a, isGet) {
      OwnerIsUnfinished(l, a, isGet);
    }
    forall t | t in Tried(l, a, isGet)
      ensures t in Finished(l, a, isGet) || (Unrecorded(l, a, isGet) && t == l.holder.value)
    {
      TriedIsFinished(l, a, isGet, t);
    }
    hide Unrecorded;
    Sets.OneMore(Tried(l, a, isGet), Finished(l, a, isGet), if Unrecorded(l, a, isGet) then l.holder else None);
  }

  lemma OwnerIsUnfinished(l: Lane, a: Addr, isGet: bool)
    requires Unrecorded(l, a, isGet)
    ensures l.holder.value !in Finished(l, a, isGet)
  {
  }

  lemma OnlyTheLastWaits(l: Lane)
    requires Resting(l)
    ensures var l' := InCall(l, Waits(l), [InFlight], []);
      && Unrecorded(l', 0, true) && l'.holder.value in Tried(l', 0, true)
      && Finished(l', 0, true) <= Tried(l', 0, true)
  {
    var l' := InCall(l, Waits(l), [InFlight], []);
    assert l'.reqs[|l.reqs|].owner == |l.reqs|;
    forall t | t in Finished(l', 0, true) ensures t in Tried(l', 0, true) {
      assert t < |l.reqs| && l'.reqs[t] == l.reqs[t];
    }
  }

  // After any number of answered calls, the next one breaks the law while it waits.
  lemma WaitingCallsBreakTheLaw(nulls: seq<bool>) returns (run: Run)
    ensures run.Valid() && VerdictsOf(run, 0) == Matched(nulls) && 0 in LedgerOf(run)
    ensures var st := LedgerOf(run)[0].gets; st.outcomes.Keys == OUTCOMES && st.initial > Total(st.outcomes)
  {
    hide run.Valid, run.Last, LedgerOf, VerdictsOf, Matched, Tried, Finished, Unrecorded, Resting;
    var before := OneByOne(nulls);
    run := Ask(before);
    OnlyTheLastWaits(before.Last());
    NodeIsKnown(before.Last());
    Engine.CallsAreKnown(run, 0);
    InitialsExceedIff(run, 0, true);
  }

  lemma NodeIsKnown(l: Lane)
    requires Resting(l)
    ensures 0 in InCall(l, Waits(l), [InFlight], []).known
  {
  }
}
