/** One node's counters in the shape of lib/site/engine/metrics.go: atomics that anybody may
    increment at any time, and a snapshot that loads them one after another. */
module Metering {
  import opened Channel
  import opened Accounting

  function Index(o: Outcome): nat {
    match o
    case SuccessFirst => 0
    case SuccessRetry => 1
    case TimedOut => 2
    case SendError => 3
    case Canceled => 4
    case NoRadio => 5
  }

  // A row of an outcome table by name.
  function Row(cells: seq<nat>): map<Outcome, nat>
    requires |cells| == 6
  {
    map[SuccessFirst := cells[0], SuccessRetry := cells[1], TimedOut := cells[2],
        SendError := cells[3], Canceled := cells[4], NoRadio := cells[5]]
  }

  lemma RowBumps(cells: seq<nat>, o: Outcome)
    requires |cells| == 6
    ensures Row(cells[Index(o) := cells[Index(o)] + 1]) == Row(cells)[o := Row(cells)[o] + 1]
  {
  }

  // ---------- the atomics ----------

  type BucketIndex = i: nat | i < 8

  datatype OpCell = Ended(outcome: Outcome) | Initial | Retry | SendErrors | Timeouts | Latencies

  datatype Cell =
    | OfOperation(isGet: bool, cell: OpCell)
    | AllLatencies
    | Bucket(index: BucketIndex)
    | OfPackets(counter: Counter)
    | TxSuccess
    | TxError

  predicate Shaped(m: Metrics) {
    m.gets.outcomes.Keys == OUTCOMES && m.sets.outcomes.Keys == OUTCOMES && |m.buckets| == 8
  }

  function OpCellOf(st: OpStats, c: OpCell): nat
    requires st.outcomes.Keys == OUTCOMES
  {
    match c
    case Ended(o) => AnOutcome(o); st.outcomes[o]
    case Initial => st.initial
    case Retry => st.retry
    case SendErrors => st.sendError
    case Timeouts => st.timeout
    case Latencies => st.latencyCount
  }

  lemma AnOutcome(o: Outcome)
    ensures o in OUTCOMES
  {
    match o
    case SuccessFirst | SuccessRetry | TimedOut | SendError | Canceled | NoRadio =>
  }

  function CellOf(m: Metrics, c: Cell): nat
    requires Shaped(m)
  {
    match c
    case OfOperation(isGet, cell) => OpCellOf(m.Of(isGet), cell)
    case AllLatencies => m.latencyCount
    case Bucket(i) => m.buckets[i]
    case OfPackets(counter) => CounterOf(m.packet, counter)
    case TxSuccess => m.packet.txSuccess
    case TxError => m.packet.txError
  }

  function OpIncremented(st: OpStats, c: OpCell): OpStats {
    match c
    case Ended(o) => Bump(st, o)
    case Initial => st.(initial := st.initial + 1)
    case Retry => st.(retry := st.retry + 1)
    case SendErrors => st.(sendError := st.sendError + 1)
    case Timeouts => st.(timeout := st.timeout + 1)
    case Latencies => st.(latencyCount := st.latencyCount + 1)
  }

  function PacketIncremented(p: PacketStats, c: Counter): PacketStats {
    match c
    case RxTotal => p.(rxTotal := p.rxTotal + 1)
    case RxValid => p.(rxValid := p.rxValid + 1)
    case MatchedValue => p.(matchedValue := p.matchedValue + 1)
    case OrphanValue => p.(orphanValue := p.orphanValue + 1)
    case MatchedAck => p.(matchedAck := p.matchedAck + 1)
    case OrphanAck => p.(orphanAck := p.orphanAck + 1)
    case NullValue => p.(nullValue := p.nullValue + 1)
    case InvalidDecode => p.(badDecode := p.badDecode + 1)
    case InvalidType => p.(badType := p.badType + 1)
  }

  function Incremented(m: Metrics, c: Cell): Metrics
    requires |m.buckets| == 8
  {
    match c
    case OfOperation(isGet, cell) => m.With(isGet, OpIncremented(m.Of(isGet), cell))
    case AllLatencies => m.(latencyCount := m.latencyCount + 1)
    case Bucket(i) => m.(buckets := m.buckets[i := m.buckets[i] + 1])
    case OfPackets(counter) => m.(packet := PacketIncremented(m.packet, counter))
    case TxSuccess => m.(packet := m.packet.(txSuccess := m.packet.txSuccess + 1))
    case TxError => m.(packet := m.packet.(txError := m.packet.txError + 1))
  }

  lemma OpAddMoves(st: OpStats, x: OpCell, y: OpCell)
    requires st.outcomes.Keys == OUTCOMES
    ensures OpIncremented(st, x).outcomes.Keys == OUTCOMES
    ensures OpCellOf(OpIncremented(st, x), y) == OpCellOf(st, y) + if x == y then 1 else 0
  {
    if x.Ended? {
      AnOutcome(x.outcome);
    }
  }

  lemma PacketAddMoves(p: PacketStats, x: Counter, y: Counter)
    ensures CounterOf(PacketIncremented(p, x), y) == CounterOf(p, y) + if x == y then 1 else 0
    ensures PacketIncremented(p, x).txSuccess == p.txSuccess && PacketIncremented(p, x).txError == p.txError
    ensures CounterOf(p.(txSuccess := p.txSuccess + 1), y) == CounterOf(p, y)
    ensures CounterOf(p.(txError := p.txError + 1), y) == CounterOf(p, y)
  {
  }

  // An Add increments its atomic and no other.
  lemma AddMoves(m: Metrics, x: Cell, y: Cell)
    requires Shaped(m)
    ensures Shaped(Incremented(m, x))
    ensures CellOf(Incremented(m, x), y) == CellOf(m, y) + if x == y then 1 else 0
  {
    hide OpCellOf, OpIncremented, CounterOf, PacketIncremented;
    if x.OfOperation? {
      OpAddMoves(m.Of(x.isGet), x.cell, if y.OfOperation? then y.cell else Initial);
    }
    PacketAddMoves(m.packet, if x.OfPackets? then x.counter else RxTotal, if y.OfPackets? then y.counter else RxTotal);
  }

  // The atomics hold what has been added to them.
  ghost predicate Logged(m: Metrics, log: seq<Cell>) {
    Shaped(m) && forall c :: CellOf(m, c) == multiset(log)[c]
  }

  lemma NothingLogged()
    ensures Logged(NewMetrics(), [])
  {
    forall c ensures CellOf(NewMetrics(), c) == 0 {
      if c.OfOperation? && c.cell.Ended? {
        AnOutcome(c.cell.outcome);
      }
    }
  }

  lemma AddIsLogged(m: Metrics, log: seq<Cell>, x: Cell)
    requires Logged(m, log)
    ensures Logged(Incremented(m, x), log + [x])
  {
    AddMoves(m, x, x);
    hide CellOf, Incremented;
    forall c ensures Shaped(Incremented(m, x)) && CellOf(Incremented(m, x), c) == multiset(log + [x])[c] {
      AddMoves(m, x, c);
    }
  }

  // ---------- the order of the loads ----------

  const OUTCOME_LOADS: seq<Outcome> := [SuccessFirst, SuccessRetry, TimedOut, SendError, Canceled, NoRadio]
  const PACKET_LOADS: seq<Counter> :=
    [RxTotal, RxValid, MatchedValue, OrphanValue, MatchedAck, OrphanAck, NullValue, InvalidDecode, InvalidType]
  const LOADS: nat := 42
  const FIRST_BUCKET: nat := 23
  const FIRST_PACKET: nat := 31

  function OpLoad(k: nat): OpCell
    requires k < 11
  {
    if k < 6 then Ended(OUTCOME_LOADS[k])
    else match k
      case 6 => Initial
      case 7 => Retry
      case 8 => SendErrors
      case 9 => Timeouts
      case _ => Latencies
  }

  function LoadAt(k: nat): Cell
    requires k < LOADS
  {
    if k < 11 then OfOperation(true, OpLoad(k))
    else if k < 22 then OfOperation(false, OpLoad(k - 11))
    else if k == 22 then AllLatencies
    else if k < FIRST_PACKET then Bucket(k - FIRST_BUCKET)
    else if k < 40 then OfPackets(PACKET_LOADS[k - FIRST_PACKET])
    else if k == 40 then TxSuccess else TxError
  }

  // The Adds of these batches, one after the other.
  function Flat(batches: seq<seq<Cell>>): seq<Cell> {
    if batches == [] then [] else Flat(batches[..|batches| - 1]) + batches[|batches| - 1]
  }

  // The Adds that had been made by a load, when one batch is made before each of them.
  function LogAt(before: seq<Cell>, others: seq<seq<Cell>>, k: nat): seq<Cell>
    requires k < |others|
  {
    before + Flat(others[..k + 1])
  }

  // The values loaded so far.
  predicate Taken(values: seq<nat>, before: seq<Cell>, others: seq<seq<Cell>>) {
    && |values| <= LOADS == |others|
    && forall k | 0 <= k < |values| :: values[k] == multiset(LogAt(before, others, k))[LoadAt(k)]
  }

  lemma OneMoreBatch(before: seq<Cell>, others: seq<seq<Cell>>, k: nat)
    requires k < |others|
    ensures LogAt(before, others, k) == before + Flat(others[..k]) + others[k]
  {
    assert others[..k + 1][..k] == others[..k];
  }

  function OpStatsOf(values: seq<nat>): OpStats
    requires |values| == 11
  {
    OpStats(Row(values[..6]), values[6], values[7], values[8], values[9], values[10])
  }

  // What the snapshot makes of them.
  function MetricsOf(values: seq<nat>): Metrics
    requires |values| == LOADS
  {
    var p := values[FIRST_PACKET..];
    Metrics(OpStatsOf(values[..11]), OpStatsOf(values[11..22]), values[22], values[FIRST_BUCKET..FIRST_PACKET],
            PacketStats(p[0], p[1], p[2], p[3], p[4], p[5], p[6], p[7], p[8], p[9], p[10]))
  }

  lemma OpValues(values: seq<nat>, k: nat)
    requires |values| == 11 && k < 11
    ensures OpStatsOf(values).outcomes.Keys == OUTCOMES && OpCellOf(OpStatsOf(values), OpLoad(k)) == values[k]
  {
  }

  lemma PacketValues(p: seq<nat>, k: nat)
    requires |p| == 11 && k < 9
    ensures CounterOf(PacketStats(p[0], p[1], p[2], p[3], p[4], p[5], p[6], p[7], p[8], p[9], p[10]), PACKET_LOADS[k])
         == p[k]
  {
  }

  // Every value goes to its own counter.
  lemma ValuesAreCells(values: seq<nat>, k: nat)
    requires |values| == LOADS && k < LOADS
    ensures Shaped(MetricsOf(values)) && CellOf(MetricsOf(values), LoadAt(k)) == values[k]
  {
    hide OpStatsOf, OpCellOf, OpLoad, CounterOf;
    OpValues(values[..11], if k < 11 then k else 0);
    OpValues(values[11..22], if 11 <= k < 22 then k - 11 else 0);
    if FIRST_PACKET <= k < 40 {
      PacketValues(values[FIRST_PACKET..], k - FIRST_PACKET);
    }
  }

  // Every atomic is loaded.
  lemma IsLoaded(c: Cell)
    ensures exists k: nat :: k < LOADS && LoadAt(k) == c
  {
    match c
    case OfOperation(isGet, cell) =>
      var k := match cell
        case Ended(o) => Index(o)
        case Initial => 6
        case Retry => 7
        case SendErrors => 8
        case Timeouts => 9
        case Latencies => 10;
      assert LoadAt(if isGet then k else 11 + k) == c;
    case AllLatencies => assert LoadAt(22) == c;
    case Bucket(i) => assert LoadAt(FIRST_BUCKET + i) == c;
    case OfPackets(counter) =>
      assert forall k: nat | k < 9 :: LoadAt(FIRST_PACKET + k) == OfPackets(PACKET_LOADS[k]);
      PacketLoaded(counter);
    case TxSuccess => assert LoadAt(40) == c;
    case TxError => assert LoadAt(41) == c;
  }

  lemma PacketLoaded(c: Counter)
    ensures c in PACKET_LOADS
  {
    match c
    case RxTotal | RxValid | MatchedValue | OrphanValue | MatchedAck | OrphanAck | NullValue | InvalidDecode
       | InvalidType =>
  }

  lemma SameOperation(a: OpStats, b: OpStats)
    requires a.outcomes.Keys == OUTCOMES && b.outcomes.Keys == OUTCOMES
    requires forall c :: OpCellOf(a, c) == OpCellOf(b, c)
    ensures a == b
  {
    forall o | o in OUTCOMES ensures a.outcomes[o] == b.outcomes[o] {
      assert OpCellOf(a, Ended(o)) == OpCellOf(b, Ended(o));
    }
    assert a.outcomes == b.outcomes;
    assert OpCellOf(a, Initial) == OpCellOf(b, Initial) && OpCellOf(a, Retry) == OpCellOf(b, Retry);
    assert OpCellOf(a, SendErrors) == OpCellOf(b, SendErrors) && OpCellOf(a, Timeouts) == OpCellOf(b, Timeouts);
    assert OpCellOf(a, Latencies) == OpCellOf(b, Latencies);
  }

  lemma SamePackets(p: PacketStats, q: PacketStats)
    requires forall c :: CounterOf(p, c) == CounterOf(q, c)
    requires p.txSuccess == q.txSuccess && p.txError == q.txError
    ensures p == q
  {
    assert CounterOf(p, RxTotal) == CounterOf(q, RxTotal) && CounterOf(p, RxValid) == CounterOf(q, RxValid);
    assert CounterOf(p, MatchedValue) == CounterOf(q, MatchedValue);
    assert CounterOf(p, OrphanValue) == CounterOf(q, OrphanValue);
    assert CounterOf(p, MatchedAck) == CounterOf(q, MatchedAck) && CounterOf(p, OrphanAck) == CounterOf(q, OrphanAck);
    assert CounterOf(p, NullValue) == CounterOf(q, NullValue);
    assert CounterOf(p, InvalidDecode) == CounterOf(q, InvalidDecode);
    assert CounterOf(p, InvalidType) == CounterOf(q, InvalidType);
  }

  // The atomics are all there is.
  lemma SameCells(a: Metrics, b: Metrics)
    requires Shaped(a) && Shaped(b) && forall c :: CellOf(a, c) == CellOf(b, c)
    ensures a == b
  {
    hide OpCellOf, CounterOf;
    forall isGet: bool ensures a.Of(isGet) == b.Of(isGet) {
      forall c: OpCell ensures OpCellOf(a.Of(isGet), c) == OpCellOf(b.Of(isGet), c) {
        assert CellOf(a, OfOperation(isGet, c)) == CellOf(b, OfOperation(isGet, c));
      }
      SameOperation(a.Of(isGet), b.Of(isGet));
    }
    assert a.Of(true) == b.Of(true) && a.Of(false) == b.Of(false);
    forall c: Counter ensures CounterOf(a.packet, c) == CounterOf(b.packet, c) {
      assert CellOf(a, OfPackets(c)) == CellOf(b, OfPackets(c));
    }
    assert CellOf(a, TxSuccess) == CellOf(b, TxSuccess) && CellOf(a, TxError) == CellOf(b, TxError);
    SamePackets(a.packet, b.packet);
    forall i | 0 <= i < 8 ensures a.buckets[i] == b.buckets[i] {
      assert CellOf(a, Bucket(i)) == CellOf(b, Bucket(i));
    }
    assert CellOf(a, AllLatencies) == CellOf(b, AllLatencies);
  }

  // The first buckets have been looked at.
  function PartlyBucketed(buckets: seq<nat>, elapsed: int, n: nat): (r: seq<nat>)
    requires |buckets| == 8
    ensures |r| == 8
  {
    seq(8, i requires 0 <= i < 8 =>
      if i < n && (i == 7 || elapsed <= BOUNDS[i]) then buckets[i] + 1 else buckets[i])
  }

  lemma NoBucketYet(buckets: seq<nat>, elapsed: int)
    requires |buckets| == 8
    ensures PartlyBucketed(buckets, elapsed, 0) == buckets
  {
  }

  lemma NextBucket(buckets: seq<nat>, elapsed: int, n: nat)
    requires |buckets| == 8 && n < 8
    ensures var bs := PartlyBucketed(buckets, elapsed, n);
      PartlyBucketed(buckets, elapsed, n + 1) == if n == 7 || elapsed <= BOUNDS[n] then bs[n := bs[n] + 1] else bs
  {
  }

  lemma AllBucketed(buckets: seq<nat>, elapsed: int)
    requires |buckets| == 8
    ensures PartlyBucketed(buckets, elapsed, 8) == Bucketed(buckets, elapsed)
  {
  }

  // ---------- the counters in place ----------

  class TransactionMetrics {
    const outcomes: array<nat>
    var initial: nat
    var retry: nat
    var sendError: nat
    var timeout: nat
    var latencyCount: nat

    ghost predicate Valid()
      reads this
    {
      outcomes.Length == 6
    }

    ghost function View(): OpStats
      reads this, outcomes
      requires Valid()
    {
      OpStats(Row(outcomes[..]), initial, retry, sendError, timeout, latencyCount)
    }

    constructor ()
      ensures Valid() && fresh(outcomes) && View() == NO_STATS
    {
      outcomes := new nat[6](_ => 0);
      initial, retry, sendError, timeout, latencyCount := 0, 0, 0, 0, 0;
      new;
      assert outcomes[..] == [0, 0, 0, 0, 0, 0];
    }

    method RecordOutcome(o: Outcome)
      requires Valid()
      modifies outcomes
      ensures View() == Bump(old(View()), o)
    {
      RowBumps(outcomes[..], o);
      outcomes[Index(o)] := outcomes[Index(o)] + 1;
      assert outcomes[..] == old(outcomes[..])[Index(o) := old(outcomes[Index(o)]) + 1];
    }

    method Add(c: OpCell)
      requires Valid()
      modifies this, outcomes
      ensures View() == OpIncremented(old(View()), c)
    {
      match c
      case Ended(o) => RecordOutcome(o);
      case Initial => initial := initial + 1;
      case Retry => retry := retry + 1;
      case SendErrors => sendError := sendError + 1;
      case Timeouts => timeout := timeout + 1;
      case Latencies => latencyCount := latencyCount + 1;
    }

    method Load(c: OpCell) returns (n: nat)
      requires Valid()
      ensures View().outcomes.Keys == OUTCOMES && n == OpCellOf(View(), c)
    {
      match c
      case Ended(o) => n := outcomes[Index(o)];
      case Initial => n := initial;
      case Retry => n := retry;
      case SendErrors => n := sendError;
      case Timeouts => n := timeout;
      case Latencies => n := latencyCount;
    }
  }

  class NodeMetrics {
    const gets: TransactionMetrics
    const sets: TransactionMetrics
    const buckets: array<nat>
    var latencyCount: nat
    var packet: PacketStats
    ghost var log: seq<Cell>  // every Add so far

    ghost predicate Separate()
      reads this, gets, sets
    {
      && gets.Valid() && sets.Valid() && gets != sets && buckets.Length == 8
      && gets.outcomes != sets.outcomes && buckets != gets.outcomes && buckets != sets.outcomes
    }

    ghost predicate Valid()
      reads this, gets, sets, Repr()
    {
      Separate() && Logged(View(), log)
    }

    ghost function Repr(): set<object>
      reads this
    {
      {this, gets, sets, buckets, gets.outcomes, sets.outcomes}
    }

    ghost function View(): Metrics
      reads this, gets, sets, Repr()
      requires Separate()
    {
      Metrics(gets.View(), sets.View(), latencyCount, buckets[..], packet)
    }

    constructor ()
      ensures Valid() && fresh(Repr()) && View() == NewMetrics() && log == []
    {
      hide Logged, CounterOf, OpCellOf;
      gets := new TransactionMetrics();
      sets := new TransactionMetrics();
      buckets := new nat[8](_ => 0);
      latencyCount, packet, log := 0, NO_PACKETS, [];
      new;
      assert buckets[..] == [0, 0, 0, 0, 0, 0, 0, 0];
      NothingLogged();
    }

    function Transaction(isGet: bool): TransactionMetrics {
      if isGet then gets else sets
    }

    // One atomic Add, by whomever.
    method Add(c: Cell)
      requires Valid()
      modifies Repr()
      ensures Valid() && View() == Incremented(old(View()), c) && log == old(log) + [c]
    {
      hide Logged, OpIncremented, PacketIncremented;
      AddIsLogged(View(), log, c);
      log := log + [c];
      match c
      case OfOperation(isGet, cell) => Transaction(isGet).Add(cell);
      case AllLatencies => latencyCount := latencyCount + 1;
      case Bucket(i) =>
        buckets[i] := buckets[i] + 1;
        assert buckets[..] == old(buckets[..])[i := old(buckets[i]) + 1];
      case OfPackets(counter) => packet := PacketIncremented(packet, counter);
      case TxSuccess => packet := packet.(txSuccess := packet.txSuccess + 1);
      case TxError => packet := packet.(txError := packet.txError + 1);
    }

    method AddAll(cells: seq<Cell>)
      requires Valid()
      modifies Repr()
      ensures Valid() && log == old(log) + cells
    {
      hide Logged, Separate, Incremented;
      for i := 0 to |cells|
        invariant Valid() && log == old(log) + cells[..i]
      {
        Add(cells[i]);
      }
    }

    method RecordOutcome(isGet: bool, o: Outcome)
      requires Valid()
      modifies Repr()
      ensures Valid() && View() == old(View()).With(isGet, Bump(old(View()).Of(isGet), o))
    {
      Add(OfOperation(isGet, Ended(o)));
    }

    // The loop over the bounds, and the last bucket.
    method AddBuckets(elapsed: int)
      requires Valid()
      modifies Repr()
      ensures Valid() && |old(View()).buckets| == 8
      ensures View() == old(View()).(buckets := Bucketed(old(View()).buckets, elapsed))
    {
      hide Logged, PartlyBucketed, Bucketed;
      ghost var before := View();
      assert |before.buckets| == 8;
      hide Separate;
      NoBucketYet(before.buckets, elapsed);
      for index := 0 to |BOUNDS|
        invariant Valid() && View() == before.(buckets := PartlyBucketed(before.buckets, elapsed, index))
      {
        NextBucket(before.buckets, elapsed, index);
        if elapsed <= BOUNDS[index] {
          Add(Bucket(index));
        }
      }
      NextBucket(before.buckets, elapsed, 7);
      Add(Bucket(7));
      AllBucketed(before.buckets, elapsed);
    }

    // A latency goes into every bucket that holds it, and into both counts.
    method RecordSuccessLatency(isGet: bool, elapsed: int)
      requires Valid()
      modifies Repr()
      ensures Valid() && View() == Timed(old(View()), isGet, elapsed)
    {
      hide Logged, Separate, Bucketed;
      Add(OfOperation(isGet, Latencies));
      Add(AllLatencies);
      AddBuckets(elapsed);
    }

    method Load(c: Cell) returns (n: nat)
      requires Valid()
      ensures n == multiset(log)[c]
    {
      match c
      case OfOperation(isGet, cell) => n := Transaction(isGet).Load(cell);
      case AllLatencies => n := latencyCount;
      case Bucket(i) => n := buckets[i];
      case OfPackets(counter) => n := CounterOf(packet, counter);
      case TxSuccess => n := packet.txSuccess;
      case TxError => n := packet.txError;
      assert n == CellOf(View(), c);
    }

    // So far in a snapshot.
    ghost predicate Loading(values: seq<nat>, before: seq<Cell>, others: seq<seq<Cell>>)
      reads this, gets, sets, Repr()
    {
      Valid() && Taken(values, before, others) && log == before + Flat(others[..|values|])
    }

    // The others make some Adds; then the next atomic is loaded.
    method LoadNext(values: seq<nat>, ghost before: seq<Cell>, c: Cell, others: seq<seq<Cell>>)
        returns (more: seq<nat>)
      requires Loading(values, before, others) && |values| < LOADS && LoadAt(|values|) == c
      modifies Repr()
      ensures Loading(more, before, others) && |more| == |values| + 1
    {
      hide Logged, LoadAt, Separate, Flat;
      OneMoreBatch(before, others, |values|);
      AddAll(others[|values|]);
      var n := Load(c);
      more := values + [n];
    }

    method LoadOperation(isGet: bool, values: seq<nat>, ghost before: seq<Cell>, others: seq<seq<Cell>>)
        returns (more: seq<nat>)
      requires Loading(values, before, others) && |values| == if isGet then 0 else 11
      modifies Repr()
      ensures Loading(more, before, others) && |more| == |values| + 11
    {
      hide Loading;
      more := values;
      for outcome := 0 to 6
        invariant Loading(more, before, others) && |more| == |values| + outcome
      {
        more := LoadNext(more, before, OfOperation(isGet, Ended(OUTCOME_LOADS[outcome])), others);
      }
      more := LoadNext(more, before, OfOperation(isGet, Initial), others);
      more := LoadNext(more, before, OfOperation(isGet, Retry), others);
      more := LoadNext(more, before, OfOperation(isGet, SendErrors), others);
      more := LoadNext(more, before, OfOperation(isGet, Timeouts), others);
      more := LoadNext(more, before, OfOperation(isGet, Latencies), others);
    }

    method LoadLatencies(values: seq<nat>, ghost before: seq<Cell>, others: seq<seq<Cell>>)
        returns (more: seq<nat>)
      requires Loading(values, before, others) && |values| == 22
      modifies Repr()
      ensures Loading(more, before, others) && |more| == FIRST_PACKET
    {
      hide Loading;
      more := LoadNext(values, before, AllLatencies, others);
      for index := 0 to 8
        invariant Loading(more, before, others) && |more| == FIRST_BUCKET + index
      {
        more := LoadNext(more, before, Bucket(index), others);
      }
    }

    method LoadPackets(values: seq<nat>, ghost before: seq<Cell>, others: seq<seq<Cell>>)
        returns (more: seq<nat>)
      requires Loading(values, before, others) && |values| == FIRST_PACKET
      modifies Repr()
      ensures Loading(more, before, others) && |more| == LOADS
    {
      hide Loading;
      more := values;
      for index := 0 to |PACKET_LOADS|
        invariant Loading(more, before, others) && |more| == FIRST_PACKET + index
      {
        more := LoadNext(more, before, OfPackets(PACKET_LOADS[index]), others);
      }
      more := LoadNext(more, before, TxSuccess, others);
      more := LoadNext(more, before, TxError, others);
    }

    // Loads every counter, one atomic after another, while the others go on: a counter
    // shows what had been added to it by the moment of its own load.
    method Snapshot(others: seq<seq<Cell>>) returns (stats: Metrics)
      requires Valid() && |others| == LOADS
      modifies Repr()
      ensures Valid() && log == old(log) + Flat(others) && Shaped(stats)
      ensures forall k | 0 <= k < LOADS ::
        CellOf(stats, LoadAt(k)) == multiset(LogAt(old(log), others, k))[LoadAt(k)]
    {
      hide Logged, Separate, LoadAt, CellOf, MetricsOf, Shaped, LogAt;
      ghost var before := log;
      assert others[..0] == [] && others[..LOADS] == others;
      var values := LoadOperation(true, [], before, others);
      values := LoadOperation(false, values, before, others);
      values := LoadLatencies(values, before, others);
      values := LoadPackets(values, before, others);
      stats := MetricsOf(values);
      ValuesAreCells(values, 0);
      forall k | 0 <= k < LOADS ensures CellOf(stats, LoadAt(k)) == values[k] {
        ValuesAreCells(values, k);
      }
    }
  }

  lemma {:induction false} NothingAdded(batches: seq<seq<Cell>>)
    requires forall k | 0 <= k < |batches| :: batches[k] == []
    ensures Flat(batches) == []
  {
    if batches != [] {
      NothingAdded(batches[..|batches| - 1]);
    }
  }

  // A snapshot during which nobody adds anything shows the counters as they are.
  lemma QuietSnapshot(stats: Metrics, m: Metrics, log: seq<Cell>, others: seq<seq<Cell>>)
    requires Logged(m, log) && Shaped(stats) && |others| == LOADS
    requires forall k | 0 <= k < |others| :: others[k] == []
    requires forall k | 0 <= k < LOADS :: CellOf(stats, LoadAt(k)) == multiset(LogAt(log, others, k))[LoadAt(k)]
    ensures stats == m
  {
    hide CellOf, LoadAt;
    forall c ensures CellOf(stats, c) == CellOf(m, c) {
      IsLoaded(c);
      var k: nat :| k < LOADS && LoadAt(k) == c;
      NothingAdded(others[..k + 1]);
    }
    SameCells(stats, m);
  }
}
