/** The incremental diagnostics publisher of lib/site/bridge/diag.go beside the simple
    one that would send the whole snapshot: after a cycle that ends well the Registry
    holds the snapshot, whatever failed batches have left behind. */
module Publisher {
  import opened Modulo
  import opened Names
  import opened Options
  import Sets

  type Path = string
  type Value = int

  // ---------- one cycle ----------

  datatype Update = Update(value: Value, metadata: bool)

  // registry and described are what the Registry holds: values, and the paths whose
  // metadata it has been given. The rest are the publisher's own variables.
  datatype State = State(lastSent: map<Path, Value>, pending: set<Path>, tick: nat,
                         batchSuccess: nat, batchError: nat, valuesSent: nat, valuesCoalesced: nat,
                         registry: map<Path, Value>, described: set<Path>)

  // The value has to be sent in this cycle; index is its position among the names.
  predicate Due(s: State, name: Path, value: Value, index: nat, cohorts: nat)
    requires cohorts > 0
  {
    name !in s.lastSent || s.lastSent[name] != value || index % cohorts == s.tick % cohorts || name in s.pending
  }

  function PrefixBatch(s: State, names: seq<Path>, values: map<Path, Value>, cohorts: nat, n: nat)
    : (r: map<Path, Update>)
    requires cohorts > 0 && n <= |names| && forall i | 0 <= i < |names| :: names[i] in values
    ensures r.Keys <= values.Keys
  {
    if n == 0 then map[]
    else
      var batch, name := PrefixBatch(s, names, values, cohorts, n - 1), names[n - 1];
      if Due(s, name, values[name], n - 1, cohorts) then batch[name := Update(values[name], name !in s.lastSent)]
      else batch
  }

  lemma {:induction false} InPrefixBatch(s: State, names: seq<Path>, values: map<Path, Value>, cohorts: nat, n: nat,
                                           name: Path)
    requires cohorts > 0 && n <= |names| && forall i | 0 <= i < |names| :: names[i] in values
    ensures var batch := PrefixBatch(s, names, values, cohorts, n);
      && (name in batch <==> exists i | 0 <= i < n :: names[i] == name && Due(s, name, values[name], i, cohorts))
      && (name in batch ==> batch[name] == Update(values[name], name !in s.lastSent))
  {
    if n > 0 {
      hide Due;
      InPrefixBatch(s, names, values, cohorts, n - 1, name);
    }
  }

  // The position of a path among the names.
  ghost function Position(names: seq<Path>, p: Path): (i: nat)
    requires p in names
    ensures i < |names| && names[i] == p
  {
    var i :| 0 <= i < |names| && names[i] == p;
    i
  }

  // A batch has exactly the paths that are due, each with its value, and with its
  // metadata until it has been sent.
  lemma BatchIs(s: State, names: seq<Path>, values: map<Path, Value>, cohorts: nat, name: Path)
    requires cohorts > 0 && Lists(names, values.Keys)
    ensures var batch := Batch(s, names, values, cohorts);
      && (name in batch <==> name in values && Due(s, name, values[name], Position(names, name), cohorts))
      && (name in batch <==>
            && name in values
            && (name !in s.lastSent || s.lastSent[name] != values[name] || name in s.pending
                || Position(names, name) % cohorts == s.tick % cohorts))
      && (name in batch ==> batch[name] == Update(values[name], name !in s.lastSent))
  {
    BatchIsDue(s, names, values, cohorts, name);
  }

  lemma BatchIsDue(s: State, names: seq<Path>, values: map<Path, Value>, cohorts: nat, name: Path)
    requires cohorts > 0 && Lists(names, values.Keys)
    ensures var batch := Batch(s, names, values, cohorts);
      && (name in batch <==> name in values && Due(s, name, values[name], Position(names, name), cohorts))
      && (name in batch ==> batch[name] == Update(values[name], name !in s.lastSent))
  {
    InPrefixBatch(s, names, values, cohorts, |names|, name);
    if name in values {
      forall i | 0 <= i < |names| && names[i] == name ensures i == Position(names, name) {
        BeforeIsTotal(name, name);
      }
    }
    hide Due, PrefixBatch;
  }

  function Batch(s: State, names: seq<Path>, values: map<Path, Value>, cohorts: nat): map<Path, Update>
    requires cohorts > 0 && forall i | 0 <= i < |names| :: names[i] in values
  {
    PrefixBatch(s, names, values, cohorts, |names|)
  }

  lemma BatchFits(s: State, names: seq<Path>, values: map<Path, Value>, cohorts: nat)
    requires cohorts > 0 && forall i | 0 <= i < |names| :: names[i] in values
    ensures |Batch(s, names, values, cohorts)| <= |values|
  {
    var batch := Batch(s, names, values, cohorts);
    assert batch.Keys <= values.Keys;
    Sets.SubsetSize(batch.Keys, values.Keys);
    assert |batch| == |batch.Keys| && |values| == |values.Keys|;
  }

  function Values(updates: map<Path, Update>): map<Path, Value> {
    map p | p in updates :: updates[p].value
  }

  // The Registry applies the updates of some paths.
  function Applied(s: State, updates: map<Path, Update>, paths: set<Path>): State {
    s.(registry := s.registry + (map p | p in updates && p in paths :: updates[p].value),
       described := s.described + (set p | p in updates && p in paths && updates[p].metadata))
  }

  // SetRegisters answers without an error, having applied the batch, or with one,
  // having applied any part of it.
  datatype Answer = Ok | Error(applied: set<Path>)

  // What a cycle makes of a batch out of so many values, and of the answer to it.
  function Settled(s: State, updates: map<Path, Update>, size: nat, answer: Answer): State
    requires |updates| <= size
  {
    if updates == map[] then s.(tick := s.tick + 1)
    else if answer.Error? then
      Applied(s, updates, answer.applied)
      .(pending := s.pending + updates.Keys, batchError := s.batchError + 1, tick := s.tick + 1)
    else
      Applied(s, updates, updates.Keys)
      .(lastSent := s.lastSent + Values(updates), pending := s.pending - updates.Keys,
        batchSuccess := s.batchSuccess + 1, valuesSent := s.valuesSent + |updates|,
        valuesCoalesced := s.valuesCoalesced + (size - |updates|), tick := s.tick + 1)
  }

  function Cycle(s: State, names: seq<Path>, values: map<Path, Value>, cohorts: nat, answer: Answer): State
    requires cohorts > 0 && forall i | 0 <= i < |names| :: names[i] in values
  {
    BatchFits(s, names, values, cohorts);
    Settled(s, Batch(s, names, values, cohorts), |values|, answer)
  }

  // ---------- agreement with sending everything ----------

  // A path is on its way, or the Registry has what was sent last.
  ghost predicate Inv(s: State) {
    && (forall p | p in s.lastSent && p !in s.pending :: p in s.registry && s.registry[p] == s.lastSent[p])
    && s.lastSent.Keys <= s.described
  }

  lemma SettledKeeps(s: State, updates: map<Path, Update>, size: nat, answer: Answer, p: Path)
    requires |updates| <= size && (p in updates && p !in s.lastSent ==> updates[p].metadata)
    requires p in s.lastSent ==>
      p in s.described && (p !in s.pending ==> p in s.registry && s.registry[p] == s.lastSent[p])
    ensures var s' := Settled(s, updates, size, answer);
      p in s'.lastSent ==>
        p in s'.described && (p !in s'.pending ==> p in s'.registry && s'.registry[p] == s'.lastSent[p])
  {
  }

  lemma Preserved(s: State, names: seq<Path>, values: map<Path, Value>, cohorts: nat, answer: Answer)
    requires Inv(s) && cohorts > 0 && Lists(names, values.Keys)
    ensures Inv(Cycle(s, names, values, cohorts, answer))
  {
    BatchFits(s, names, values, cohorts);
    var s' := Cycle(s, names, values, cohorts, answer);
    hide Lists;
    forall p | p in s'.lastSent
      ensures p in s'.described && (p !in s'.pending ==> p in s'.registry && s'.registry[p] == s'.lastSent[p])
    {
      BatchIs(s, names, values, cohorts, p);
      SettledKeeps(s, Batch(s, names, values, cohorts), |values|, answer, p);
      hide Batch, Settled, Due;
    }
    hide Cycle;
  }

  // The simple publisher: send the whole snapshot.
  function Everything(registry: map<Path, Value>, values: map<Path, Value>): map<Path, Value> {
    registry + values
  }

  // The cycle ends well: its batch is accepted, or there is nothing to send.
  predicate EndsWell(s: State, names: seq<Path>, values: map<Path, Value>, cohorts: nat, answer: Answer)
    requires cohorts > 0 && forall i | 0 <= i < |names| :: names[i] in values
  {
    answer.Ok? || Batch(s, names, values, cohorts) == map[]
  }

  // What a batch leaves out is already there.
  lemma LeftOutIsThere(s: State, names: seq<Path>, values: map<Path, Value>, cohorts: nat, p: Path)
    requires Inv(s) && cohorts > 0 && Lists(names, values.Keys) && p in values && p !in Batch(s, names, values, cohorts)
    ensures p in s.registry && s.registry[p] == values[p] && p in s.described
  {
    BatchIs(s, names, values, cohorts, p);
  }

  lemma AgreesAt(s: State, names: seq<Path>, values: map<Path, Value>, cohorts: nat, answer: Answer, p: Path)
    requires Inv(s) && cohorts > 0 && Lists(names, values.Keys) && EndsWell(s, names, values, cohorts, answer)
    ensures var s' := Cycle(s, names, values, cohorts, answer);
      && (p in s'.registry <==> p in s.registry || p in values)
      && (p in s'.registry ==> s'.registry[p] == Everything(s.registry, values)[p])
      && (p in values ==> p in s'.described)
  {
    BatchIs(s, names, values, cohorts, p);
    if p in values && p !in Batch(s, names, values, cohorts) {
      LeftOutIsThere(s, names, values, cohorts, p);
    }
    hide Batch, Due, Lists;
  }

  // After a cycle that ends well the Registry holds what sending the whole snapshot
  // would have left there, and has the metadata of every path.
  lemma AgreesWithEverything(s: State, names: seq<Path>, values: map<Path, Value>, cohorts: nat, answer: Answer)
    requires Inv(s) && cohorts > 0 && Lists(names, values.Keys) && EndsWell(s, names, values, cohorts, answer)
    ensures Cycle(s, names, values, cohorts, answer).registry == Everything(s.registry, values)
    ensures values.Keys <= Cycle(s, names, values, cohorts, answer).described
  {
    var s' := Cycle(s, names, values, cohorts, answer);
    hide Cycle, EndsWell, Inv, Lists;
    forall p
      ensures p in s'.registry <==> p in s.registry || p in values
      ensures p in s'.registry ==> s'.registry[p] == Everything(s.registry, values)[p]
      ensures p in values ==> p in s'.described
    {
      AgreesAt(s, names, values, cohorts, answer, p);
    }
    SameMap(s'.registry, Everything(s.registry, values));
  }

  lemma SameMap(a: map<Path, Value>, b: map<Path, Value>)
    requires forall p :: (p in a <==> p in b) && (p in a ==> a[p] == b[p])
    ensures a == b
  {
  }

  // ---------- runs ----------

  predicate Initial(s: State) {
    s == State(map[], {}, 0, 0, 0, 0, 0, s.registry, {})
  }

  // The Registry may hold anything before the first cycle.
  datatype Run = First(start: State) | Then(run: Run, names: seq<Path>, values: map<Path, Value>, answer: Answer) {
    ghost predicate Valid(cohorts: nat)
      requires cohorts > 0
      decreases this, 0
    {
      match this
      case First(start) => Initial(start)
      case Then(run, names, values, answer) => run.Valid(cohorts) && Lists(names, values.Keys)
    }

    ghost function Last(cohorts: nat): State
      requires cohorts > 0 && Valid(cohorts)
      decreases this, 1
    {
      match this
      case First(start) => start
      case Then(run, names, values, answer) => Cycle(run.Last(cohorts), names, values, cohorts, answer)
    }

    // The paths of the snapshots never change.
    predicate FixedCatalog(keys: set<Path>) {
      Then? ==> run.FixedCatalog(keys) && values.Keys == keys
    }

    predicate Extends(earlier: Run) {
      this == earlier || (Then? && run.Extends(earlier))
    }

    function Cycles(): nat {
      if First? then 0 else run.Cycles() + 1
    }
  }

  // The batch of a run's latest cycle.
  ghost function LastBatch(run: Run, cohorts: nat): map<Path, Update>
    requires cohorts > 0 && run.Valid(cohorts) && run.Then?
  {
    Batch(run.run.Last(cohorts), run.names, run.values, cohorts)
  }

  lemma {:induction false} Reachable(run: Run, cohorts: nat)
    requires cohorts > 0 && run.Valid(cohorts)
    ensures Inv(run.Last(cohorts)) && run.Last(cohorts).tick == run.Cycles()
  {
    if run.Then? {
      Reachable(run.run, cohorts);
      Preserved(run.run.Last(cohorts), run.names, run.values, cohorts, run.answer);
    }
  }

  // After every cycle that ends well, in any run, the Registry agrees with the snapshot.
  lemma RegistryHoldsTheSnapshot(run: Run, cohorts: nat)
    requires cohorts > 0 && run.Valid(cohorts) && run.Then?
    requires EndsWell(run.run.Last(cohorts), run.names, run.values, cohorts, run.answer)
    ensures forall p | p in run.values ::
      p in run.Last(cohorts).registry && run.Last(cohorts).registry[p] == run.values[p]
        && p in run.Last(cohorts).described
  {
    Reachable(run.run, cohorts);
    AgreesWithEverything(run.run.Last(cohorts), run.names, run.values, cohorts, run.answer);
  }

  // Metadata goes with a path until a batch with it has been accepted, and no longer.
  lemma {:induction false} MetadataUntilAccepted(run: Run, cohorts: nat, p: Path)
    requires cohorts > 0 && run.Valid(cohorts) && run.Then? && p in LastBatch(run, cohorts)
    ensures LastBatch(run, cohorts)[p].metadata <==> !AcceptedBefore(run.run, cohorts, p)
  {
    AcceptedIsSent(run.run, cohorts, p);
    BatchIs(run.run.Last(cohorts), run.names, run.values, cohorts, p);
    hide Batch, Due;
  }

  ghost predicate AcceptedBefore(run: Run, cohorts: nat, p: Path)
    requires cohorts > 0 && run.Valid(cohorts)
  {
    run.Then? && (AcceptedBefore(run.run, cohorts, p) || (run.answer.Ok? && p in LastBatch(run, cohorts)))
  }

  lemma {:induction false} AcceptedIsSent(run: Run, cohorts: nat, p: Path)
    requires cohorts > 0 && run.Valid(cohorts)
    ensures p in run.Last(cohorts).lastSent <==> AcceptedBefore(run, cohorts, p)
  {
    if run.Then? {
      AcceptedIsSent(run.run, cohorts, p);
      hide Batch, Lists;
    }
  }

  // The latest batch has brought this path to the Registry.
  ghost predicate Arrived(run: Run, cohorts: nat, p: Path)
    requires cohorts > 0 && run.Valid(cohorts) && run.Then?
  {
    p in LastBatch(run, cohorts) && (run.answer.Ok? || p in run.answer.applied)
  }

  ghost predicate Described(run: Run, cohorts: nat, p: Path)
    requires cohorts > 0 && run.Valid(cohorts)
  {
    run.Then? && (Described(run.run, cohorts, p) || (Arrived(run, cohorts, p) && LastBatch(run, cohorts)[p].metadata))
  }

  ghost function LastArrived(run: Run, cohorts: nat, p: Path): Option<Value>
    requires cohorts > 0 && run.Valid(cohorts)
  {
    if run.First? then if p in run.start.registry then Some(run.start.registry[p]) else None
    else if Arrived(run, cohorts, p) then Some(LastBatch(run, cohorts)[p].value)
    else LastArrived(run.run, cohorts, p)
  }

  lemma ArrivesInCycle(s: State, names: seq<Path>, values: map<Path, Value>, cohorts: nat, answer: Answer, p: Path)
    requires cohorts > 0 && Lists(names, values.Keys)
    ensures var s', batch := Cycle(s, names, values, cohorts, answer), Batch(s, names, values, cohorts);
      var arrives := p in batch && (answer.Ok? || p in answer.applied);
      && (p in s'.described <==> p in s.described || (arrives && batch[p].metadata))
      && (if arrives then p in s'.registry && s'.registry[p] == batch[p].value
          else (p in s'.registry <==> p in s.registry) && (p in s.registry ==> s'.registry[p] == s.registry[p]))
  {
    BatchFits(s, names, values, cohorts);
    hide Batch, Lists;
  }

  // The Registry holds of each path what the latest batch that reached it has brought, and
  // its metadata exactly if some batch with it has.
  lemma {:induction false} RegistryIsWhatArrived(run: Run, cohorts: nat, p: Path)
    requires cohorts > 0 && run.Valid(cohorts)
    ensures p in run.Last(cohorts).described <==> Described(run, cohorts, p)
    ensures match LastArrived(run, cohorts, p)
      case Some(v) => p in run.Last(cohorts).registry && run.Last(cohorts).registry[p] == v
      case None => p !in run.Last(cohorts).registry
  {
    if run.Then? {
      hide Cycle, Batch, Lists;
      ArrivesInCycle(run.run.Last(cohorts), run.names, run.values, cohorts, run.answer, p);
      RegistryIsWhatArrived(run.run, cohorts, p);
    }
  }

  // ---------- a failed batch is tried again ----------

  lemma {:induction false} FailedStaysPending(failed: Run, later: Run, cohorts: nat, keys: set<Path>, p: Path)
    requires cohorts > 0 && later.Valid(cohorts) && failed.Valid(cohorts) && later.Extends(failed)
      && later.FixedCatalog(keys)
    requires failed.Then? && failed.answer.Error? && p in LastBatch(failed, cohorts)
    requires NoneAccepted(later, failed)
    ensures p in later.Last(cohorts).pending && p in keys
  {
    hide Batch;
    if later != failed {
      FailedStaysPending(failed, later.run, cohorts, keys, p);
      ErrorsPend(later, cohorts, p);
    } else {
      ErrorsPend(failed, cohorts, p);
      BatchIs(failed.run.Last(cohorts), failed.names, failed.values, cohorts, p);
    }
  }

  lemma ErrorsPend(run: Run, cohorts: nat, p: Path)
    requires cohorts > 0 && run.Valid(cohorts) && run.Then? && run.answer.Error?
    requires p in run.run.Last(cohorts).pending || p in LastBatch(run, cohorts)
    ensures p in run.Last(cohorts).pending
  {
    hide Batch, Lists;
  }

  // A path of a failed batch is in every later batch up to and including the first one
  // that is accepted, which settles it.
  lemma FailedIsRetried(failed: Run, later: Run, cohorts: nat, keys: set<Path>, p: Path)
    requires cohorts > 0 && later.Valid(cohorts) && failed.Valid(cohorts) && later.Extends(failed)
      && later.FixedCatalog(keys)
    requires failed.Then? && failed.answer.Error? && p in LastBatch(failed, cohorts)
    requires later != failed && NoneAccepted(later.run, failed)
    ensures p in LastBatch(later, cohorts)
    ensures p in later.Last(cohorts).pending <==> later.answer.Error?
    ensures later.answer.Ok? ==> p in later.values && p in later.Last(cohorts).lastSent
                                 && later.Last(cohorts).lastSent[p] == later.values[p]
  {
    FailedStaysPending(failed, later.run, cohorts, keys, p);
    hide Due, Batch, Lists, Cycle;
    PendingIsDue(later.run.Last(cohorts), later.names, later.values, cohorts, p);
    BatchIs(later.run.Last(cohorts), later.names, later.values, cohorts, p);
    SentIsSettled(later, cohorts, p);
  }

  // What an answer does to a path that has been sent.
  lemma SentIsSettled(run: Run, cohorts: nat, p: Path)
    requires cohorts > 0 && run.Valid(cohorts) && run.Then? && p in LastBatch(run, cohorts)
    ensures p in run.Last(cohorts).pending <==> run.answer.Error?
    ensures run.answer.Ok? ==> p in run.values && p in run.Last(cohorts).lastSent
                               && run.Last(cohorts).lastSent[p] == run.values[p]
  {
    BatchFits(run.run.Last(cohorts), run.names, run.values, cohorts);
    BatchIs(run.run.Last(cohorts), run.names, run.values, cohorts, p);
    hide Due, Batch, Lists;
  }

  predicate NoneAccepted(later: Run, failed: Run) {
    later == failed || (later.Then? && later.answer.Error? && NoneAccepted(later.run, failed))
  }

  lemma PendingIsDue(s: State, names: seq<Path>, values: map<Path, Value>, cohorts: nat, p: Path)
    requires cohorts > 0 && Lists(names, values.Keys) && p in values && p in s.pending
    ensures p in Batch(s, names, values, cohorts)
  {
    BatchIs(s, names, values, cohorts, p);
  }

  // ---------- every path is refreshed in time ----------

  // refreshCohortCount, in nanoseconds.
  function CohortCount(ttl: int, interval: int): (r: nat)
    requires ttl > 0 && interval > 0
    ensures r >= 1
  {
    var count := ttl / (2 * interval);
    if count < 1 then 1 else count
  }

  // A round of refreshes fits half the TTL exactly when the TTL has room for two cycles.
  lemma RoundFitsHalfTtlIff(ttl: int, interval: int)
    requires ttl > 0 && interval > 0
    ensures 2 * (CohortCount(ttl, interval) * interval) <= ttl <==> 2 * interval <= ttl
  {
    var count := ttl / (2 * interval);
    assert ttl == 2 * interval * count + ttl % (2 * interval);
    assert 2 * interval * count == 2 * (count * interval);
  }

  // And no longer round fits: the count is the largest one that does, or else one.
  lemma CountIsLargest(ttl: int, interval: int, count: nat)
    requires ttl > 0 && interval > 0 && count >= 1 && 2 * (count * interval) <= ttl
    ensures count <= CohortCount(ttl, interval) && 2 * (CohortCount(ttl, interval) * interval) <= ttl
  {
    var most := ttl / (2 * interval);
    assert ttl == 2 * interval * most + ttl % (2 * interval);
    assert 2 * interval * count == 2 * (count * interval);
    assert count > most ==> 2 * interval * (most + 1) <= 2 * interval * count;
    assert 1 * interval <= count * interval;
    RoundFitsHalfTtlIff(ttl, interval);
  }

  // The run up to its n-th cycle.
  function Upto(run: Run, n: nat): (r: Run)
    requires n <= run.Cycles()
    ensures r.Cycles() == n && run.Extends(r)
  {
    if run.Cycles() == n then run else Upto(run.run, n)
  }

  lemma {:induction false} UptoIsARun(run: Run, n: nat, cohorts: nat, keys: set<Path>)
    requires cohorts > 0 && run.Valid(cohorts) && run.FixedCatalog(keys) && n <= run.Cycles()
    ensures Upto(run, n).Valid(cohorts) && Upto(run, n).FixedCatalog(keys)
  {
    if run.Cycles() != n {
      UptoIsARun(run.run, n, cohorts, keys);
    }
  }

  lemma {:induction false} UptoStepsBack(run: Run, n: nat)
    requires n < run.Cycles()
    ensures Upto(run, n + 1).Then? && Upto(run, n + 1).run == Upto(run, n)
  {
    if run.Cycles() != n + 1 {
      UptoStepsBack(run.run, n);
    }
  }

  lemma InItsCohort(s: State, names: seq<Path>, values: map<Path, Value>, cohorts: nat, p: Path, i: nat)
    requires cohorts > 0 && Lists(names, values.Keys) && i < |names| && names[i] == p && i % cohorts == s.tick % cohorts
    ensures p in Batch(s, names, values, cohorts)
  {
    InPrefixBatch(s, names, values, cohorts, |names|, p);
  }

  // In the cycle of its cohort a path is in the batch.
  lemma InItsCycle(run: Run, cohorts: nat, keys: set<Path>, names: seq<Path>, p: Path, i: nat)
    requires cohorts > 0 && run.Valid(cohorts) && run.Then? && run.FixedCatalog(keys)
    requires Lists(names, keys) && i < |names| && names[i] == p && i % cohorts == run.run.Cycles() % cohorts
    ensures p in LastBatch(run, cohorts)
  {
    hide Cycle, Batch, Inv, Before;
    ListIsUnique(names, run.names, keys);
    Reachable(run.run, cohorts);
    InItsCohort(run.run.Last(cohorts), names, run.values, cohorts, p, i);
  }

  lemma PlaceInCatalog(run: Run, cohorts: nat, keys: set<Path>, p: Path) returns (i: nat)
    requires cohorts > 0 && run.Valid(cohorts) && run.Then? && run.FixedCatalog(keys) && p in keys
    ensures Lists(run.names, keys) && i < |run.names| && run.names[i] == p
  {
    hide Cycle, Before;
    assert p in run.names;
    i := Position(run.names, p);
  }

  // Any cohorts consecutive cycles send every path at least once.
  lemma EveryPathIsRefreshed(run: Run, cohorts: nat, keys: set<Path>, p: Path, first: nat) returns (n: nat)
    requires cohorts > 0 && run.Valid(cohorts) && run.FixedCatalog(keys) && p in keys
    requires first + cohorts <= run.Cycles()
    ensures first <= n < first + cohorts
    ensures Upto(run, n + 1).Valid(cohorts) && Upto(run, n + 1).Then? && p in LastBatch(Upto(run, n + 1), cohorts)
  {
    hide Cycle, Batch, Inv, Before, Lists, run.FixedCatalog;
    UptoStepsBack(run, first);
    UptoIsARun(run, first + 1, cohorts, keys);
    var names := Upto(run, first + 1).names;
    var i := PlaceInCatalog(Upto(run, first + 1), cohorts, keys, p);
    n := first + Ahead(first, i % cohorts, cohorts);
    AheadHits(first, i % cohorts, cohorts);
    UptoStepsBack(run, n);
    UptoIsARun(run, n + 1, cohorts, keys);
    InItsCycle(Upto(run, n + 1), cohorts, keys, names, p, i);
  }

  // In its n-th cycle the path is neither new nor changed nor pending.
  ghost predicate Unchanged(run: Run, cohorts: nat, p: Path, n: nat)
    requires cohorts > 0 && n < run.Cycles()
  {
    var before, cycle := Upto(run, n), Upto(run, n + 1);
    && before.Valid(cohorts) && cycle.Then?
    && var s := before.Last(cohorts);
       p in s.lastSent && p in cycle.values && s.lastSent[p] == cycle.values[p] && p !in s.pending
  }

  // The path is in the batch of the n-th cycle.
  ghost predicate SentIn(run: Run, cohorts: nat, p: Path, n: nat)
    requires cohorts > 0 && n < run.Cycles()
  {
    var cycle := Upto(run, n + 1);
    cycle.Valid(cohorts) && cycle.Then? && p in LastBatch(cycle, cohorts)
  }

  // An unchanged path is sent in the cycles of its cohort only.
  lemma OnlyInItsCycle(run: Run, cohorts: nat, keys: set<Path>, names: seq<Path>, p: Path, i: nat, n: nat)
    requires cohorts > 0 && run.Valid(cohorts) && run.FixedCatalog(keys) && n < run.Cycles()
    requires Lists(names, keys) && i < |names| && names[i] == p && Unchanged(run, cohorts, p, n)
    requires Upto(run, n + 1).Valid(cohorts) && Upto(run, n + 1).Then? && p in LastBatch(Upto(run, n + 1), cohorts)
    ensures i % cohorts == n % cohorts
  {
    hide Cycle, Batch, Inv, Before, Due;
    var cycle := Upto(run, n + 1);
    UptoStepsBack(run, n);
    UptoIsARun(run, n + 1, cohorts, keys);
    ListIsUnique(names, cycle.names, keys);
    Reachable(cycle.run, cohorts);
    BatchIs(cycle.run.Last(cohorts), cycle.names, cycle.values, cohorts, p);
    SamePosition(names, keys, p, i);
  }

  lemma SamePosition(names: seq<Path>, keys: set<Path>, p: Path, i: nat)
    requires Lists(names, keys) && i < |names| && names[i] == p
    ensures p in names && Position(names, p) == i
  {
    assert p in names;
    BeforeIsTotal(p, p);
  }

  // Any cohorts consecutive cycles send every path, and one that is neither new nor
  // changed nor pending meanwhile exactly once.
  lemma UnchangedIsSentOnce(run: Run, cohorts: nat, keys: set<Path>, p: Path, first: nat) returns (n: nat)
    requires cohorts > 0 && run.Valid(cohorts) && run.FixedCatalog(keys) && p in keys
    requires first + cohorts <= run.Cycles()
    requires forall m | first <= m < first + cohorts :: Unchanged(run, cohorts, p, m)
    ensures first <= n < first + cohorts
    ensures forall m | first <= m < first + cohorts :: SentIn(run, cohorts, p, m) <==> m == n
  {
    hide Cycle, Batch, Inv, Before, Lists, run.FixedCatalog, Unchanged;
    n := EveryPathIsRefreshed(run, cohorts, keys, p, first);
    UptoStepsBack(run, first);
    UptoIsARun(run, first + 1, cohorts, keys);
    var names := Upto(run, first + 1).names;
    var i := PlaceInCatalog(Upto(run, first + 1), cohorts, keys, p);
    OnlyInItsCycle(run, cohorts, keys, names, p, i, n);
    forall m | first <= m < first + cohorts && SentIn(run, cohorts, p, m) ensures m == n {
      if SentIn(run, cohorts, p, m) {
        OnlyInItsCycle(run, cohorts, keys, names, p, i, m);
        CongruentInWindow(first, m, n, cohorts);
      }
    }
  }

  lemma CongruentInWindow(first: nat, m: nat, n: nat, cohorts: nat)
    requires cohorts > 0 && first <= m < first + cohorts && first <= n < first + cohorts && m % cohorts == n % cohorts
    ensures m == n
  {
    var gap := if m < n then n - m else m - n;
    var low := if m < n then m else n;
    if gap > 0 {
      ModUnique(low, low / cohorts, low % cohorts, cohorts);
      var r := low % cohorts + gap;
      if r < cohorts {
        ModUnique(low + gap, low / cohorts, r, cohorts);
      } else {
        ModUnique(low + gap, low / cohorts + 1, r - cohorts, cohorts);
      }
      assert false;
    }
  }

  // ---------- the counters ----------

  lemma Counts(s: State, names: seq<Path>, values: map<Path, Value>, cohorts: nat, answer: Answer)
    requires cohorts > 0 && Lists(names, values.Keys)
    ensures var s' := Cycle(s, names, values, cohorts, answer);
      if answer.Ok? && Batch(s, names, values, cohorts) != map[] then
        && s'.batchSuccess == s.batchSuccess + 1
        && s'.valuesSent + s'.valuesCoalesced == s.valuesSent + s.valuesCoalesced + |values|
      else
        && s'.batchSuccess == s.batchSuccess
        && s'.valuesSent == s.valuesSent && s'.valuesCoalesced == s.valuesCoalesced
  {
    BatchFits(s, names, values, cohorts);
    hide Batch;
  }

  // The latest cycle of a run got a batch accepted.
  ghost predicate Accepted(run: Run, cohorts: nat)
    requires cohorts > 0 && run.Valid(cohorts) && run.Then?
  {
    run.answer.Ok? && LastBatch(run, cohorts) != map[]
  }

  lemma CountsOfRun(run: Run, cohorts: nat)
    requires cohorts > 0 && run.Valid(cohorts) && run.Then?
    ensures var s, s' := run.run.Last(cohorts), run.Last(cohorts);
      && s'.batchSuccess == s.batchSuccess + (if Accepted(run, cohorts) then 1 else 0)
      && s'.valuesSent + s'.valuesCoalesced
           == s.valuesSent + s.valuesCoalesced + (if Accepted(run, cohorts) then |run.values.Keys| else 0)
  {
    Counts(run.run.Last(cohorts), run.names, run.values, cohorts, run.answer);
    assert |run.values| == |run.values.Keys|;
    hide Cycle, Batch, Lists;
  }

  lemma Accumulates(total: int, total': int, n: nat, successes: nat, successes': nat)
    requires total == n * successes
    requires (total' == total && successes' == successes) || (total' == total + n && successes' == successes + 1)
    ensures total' == n * successes'
  {
    if successes' == successes + 1 {
      assert n * (successes + 1) == n * successes + n;
    }
  }

  lemma OneCycleAccounts(run: Run, cohorts: nat, n: nat)
    requires cohorts > 0 && run.Valid(cohorts) && run.Then? && |run.values.Keys| == n
    requires var s := run.run.Last(cohorts); s.valuesSent + s.valuesCoalesced == n * s.batchSuccess
    ensures var s := run.Last(cohorts); s.valuesSent + s.valuesCoalesced == n * s.batchSuccess
  {
    CountsOfRun(run, cohorts);
    var s, s' := run.run.Last(cohorts), run.Last(cohorts);
    hide *;
    Accumulates(s.valuesSent + s.valuesCoalesced, s'.valuesSent + s'.valuesCoalesced, n, s.batchSuccess,
      s'.batchSuccess);
  }

  // Over a fixed catalog every accepted batch accounts for every path, sent or not.
  lemma {:induction false} SentPlusCoalesced(run: Run, cohorts: nat, keys: set<Path>)
    requires cohorts > 0 && run.Valid(cohorts) && run.FixedCatalog(keys)
    ensures var s := run.Last(cohorts); s.valuesSent + s.valuesCoalesced == |keys| * s.batchSuccess
  {
    if run.Then? {
      hide Cycle, Batch, Lists;
      SentPlusCoalesced(run.run, cohorts, keys);
      OneCycleAccounts(run, cohorts, |keys|);
    }
  }

  // The batches that have been accepted, or not, and the values in those accepted.
  ghost function AcceptedBatches(run: Run, cohorts: nat): nat
    requires cohorts > 0 && run.Valid(cohorts)
  {
    if run.First? then 0
    else AcceptedBatches(run.run, cohorts) + if run.answer.Ok? && LastBatch(run, cohorts) != map[] then 1 else 0
  }

  ghost function FailedBatches(run: Run, cohorts: nat): nat
    requires cohorts > 0 && run.Valid(cohorts)
  {
    if run.First? then 0
    else FailedBatches(run.run, cohorts) + if run.answer.Error? && LastBatch(run, cohorts) != map[] then 1 else 0
  }

  ghost function SentValues(run: Run, cohorts: nat): nat
    requires cohorts > 0 && run.Valid(cohorts)
  {
    if run.First? then 0
    else SentValues(run.run, cohorts) + if run.answer.Ok? then |LastBatch(run, cohorts)| else 0
  }

  lemma CountersOfCycle(s: State, names: seq<Path>, values: map<Path, Value>, cohorts: nat, answer: Answer)
    requires cohorts > 0 && Lists(names, values.Keys)
    ensures var s', batch := Cycle(s, names, values, cohorts, answer), Batch(s, names, values, cohorts);
      && s'.batchSuccess == s.batchSuccess + (if answer.Ok? && batch != map[] then 1 else 0)
      && s'.batchError == s.batchError + (if answer.Error? && batch != map[] then 1 else 0)
      && s'.valuesSent == s.valuesSent + (if answer.Ok? then |batch| else 0)
  {
    BatchFits(s, names, values, cohorts);
    hide Batch;
  }

  lemma OneCycleCounts(run: Run, cohorts: nat)
    requires cohorts > 0 && run.Valid(cohorts) && run.Then?
    ensures var s, s', batch := run.run.Last(cohorts), run.Last(cohorts), LastBatch(run, cohorts);
      && s'.batchSuccess == s.batchSuccess + (if run.answer.Ok? && batch != map[] then 1 else 0)
      && s'.batchError == s.batchError + (if run.answer.Error? && batch != map[] then 1 else 0)
      && s'.valuesSent == s.valuesSent + (if run.answer.Ok? then |batch| else 0)
  {
    CountersOfCycle(run.run.Last(cohorts), run.names, run.values, cohorts, run.answer);
    hide Cycle, Batch, Lists;
  }

  // An empty cycle counts no batch, and any other one its batch and, if that has been
  // accepted, its values.
  lemma {:induction false} BatchesAreCounted(run: Run, cohorts: nat)
    requires cohorts > 0 && run.Valid(cohorts)
    ensures run.Last(cohorts).batchSuccess == AcceptedBatches(run, cohorts)
    ensures run.Last(cohorts).batchError == FailedBatches(run, cohorts)
    ensures run.Last(cohorts).valuesSent == SentValues(run, cohorts)
  {
    if run.Then? {
      OneCycleCounts(run, cohorts);
      hide Cycle, Batch, Lists, LastBatch;
      BatchesAreCounted(run.run, cohorts);
    }
  }

  // ---------- the publisher itself ----------

  class Diagnostics {
    const cohorts: nat
    var lastSent: map<Path, Value>
    var pending: set<Path>
    var tick: nat
    var batchSuccess: nat
    var batchError: nat
    var valuesSent: nat
    var valuesCoalesced: nat
    var registry: map<Path, Value>  // the Registry at the other end
    var described: set<Path>
    ghost var run: Run

    function View(): State
      reads this
    {
      State(lastSent, pending, tick, batchSuccess, batchError, valuesSent, valuesCoalesced, registry, described)
    }

    ghost predicate Valid()
      reads this
    {
      cohorts > 0 && run.Valid(cohorts) && run.Last(cohorts) == View()
    }

    constructor (ttl: int, interval: int, registry: map<Path, Value>)
      requires ttl > 0 && interval > 0
      ensures Valid() && run.First? && cohorts == CohortCount(ttl, interval) && this.registry == registry
    {
      cohorts := CohortCount(ttl, interval);
      lastSent, pending, tick := map[], {}, 0;
      batchSuccess, batchError, valuesSent, valuesCoalesced := 0, 0, 0, 0;
      this.registry, described := registry, {};
      new;
      run := First(View());
    }

    // SetRegisters: the Registry applies all updates, or some of them and fails.
    method SetRegisters(updates: map<Path, Update>, answer: Answer)
      modifies this`registry, this`described
      ensures View() == Applied(old(View()), updates, if answer.Ok? then updates.Keys else answer.applied)
    {
      var paths := if answer.Ok? then updates.Keys else answer.applied;
      registry := registry + (map p | p in updates && p in paths :: updates[p].value);
      described := described + (set p | p in updates && p in paths && updates[p].metadata);
    }

    // The loop over the names of a snapshot.
    method Collect(names: seq<Path>, values: map<Path, Value>) returns (updates: map<Path, Update>)
      requires cohorts > 0 && forall i | 0 <= i < |names| :: names[i] in values
      ensures updates == Batch(View(), names, values, cohorts)
    {
      updates := map[];
      for index := 0 to |names|
        invariant updates == PrefixBatch(View(), names, values, cohorts, index)
      {
        var name := names[index];
        var sent := name in lastSent;
        var changed := !sent || lastSent[name] != values[name];
        var refresh := sent && index % cohorts == tick % cohorts;
        if changed || refresh || name in pending {
          updates := updates[name := Update(values[name], !sent)];
        }
      }
    }

    method NoteError(updates: map<Path, Update>)
      modifies this`pending, this`batchError
      ensures View() == old(View()).(pending := old(pending) + updates.Keys, batchError := old(batchError) + 1)
    {
      pending := pending + updates.Keys;
      batchError := batchError + 1;
    }

    method NoteSuccess(updates: map<Path, Update>, size: nat)
      requires |updates| <= size
      modifies this`lastSent, this`pending, this`batchSuccess, this`valuesSent, this`valuesCoalesced
      ensures lastSent == old(lastSent) + Values(updates) && pending == old(pending) - updates.Keys
      ensures batchSuccess == old(batchSuccess) + 1 && valuesSent == old(valuesSent) + |updates|
      ensures valuesCoalesced == old(valuesCoalesced) + (size - |updates|)
    {
      lastSent := lastSent + Values(updates);
      pending := pending - updates.Keys;
      batchSuccess := batchSuccess + 1;
      valuesSent := valuesSent + |updates|;
      valuesCoalesced := valuesCoalesced + (size - |updates|);
    }

    method Settle(updates: map<Path, Update>, size: nat, answer: Answer)
      requires |updates| <= size
      modifies this
      ensures View() == Settled(old(View()), updates, size, answer) && run == old(run)
    {
      hide Applied, Values;
      if updates != map[] {
        SetRegisters(updates, answer);
        if answer.Error? {
          NoteError(updates);
        } else {
          NoteSuccess(updates, size);
        }
      }
      tick := tick + 1;
    }

    // One cycle. When it ends well, the Registry holds the whole snapshot.
    method Publish(values: map<Path, Value>, answer: Answer) returns (well: bool)
      requires Valid()
      modifies this
      ensures Valid() && run.Then? && run.run == old(run) && run.values == values && run.answer == answer
      ensures answer.Ok? ==> well
      ensures well ==> forall p | p in values :: p in registry && registry[p] == values[p] && p in described
    {
      well := PublishBatch(values, answer);
      hide Cycle, Batch, Lists;
      if well {
        RegistryHoldsTheSnapshot(run, cohorts);
      }
    }

    method PublishBatch(values: map<Path, Value>, answer: Answer) returns (well: bool)
      requires Valid()
      modifies this
      ensures Valid() && run.Then? && run.run == old(run) && run.values == values && run.answer == answer
      ensures answer.Ok? ==> well
      ensures well ==> EndsWell(run.run.Last(cohorts), run.names, values, cohorts, answer)
    {
      var names := SortedNames(values.Keys);
      var updates := Collect(names, values);
      hide Settled, Batch, Lists;
      BatchFits(View(), names, values, cohorts);
      well := answer.Ok? || updates == map[];
      Settle(updates, |values|, answer);
      run := Then(run, names, values, answer);
    }
  }
}
