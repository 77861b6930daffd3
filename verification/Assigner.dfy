/** The dongle assigner of lib/site/cli/hub.go: channels claim connected devices, try
    each free one once, and give a device back when its dongle is first closed. */
module Assigner {
  import opened Options
  import opened Names

  type Key = string  // a scheme-qualified selector
  type Hid = nat     // one call of claim, and the dongle it returns

  // tries holds the keys a call has reserved so far, in order: history, and but for the
  // last one the set it excludes.
  datatype Holder =
    | Searching(tries: seq<Key>)
    | Opening(tries: seq<Key>)             // the last try is reserved
    | Holding(key: Key, released: bool)
    | Ended                                // nothing free, or discovery failed

  datatype State = State(claimed: set<Key>, holders: map<Hid, Holder>)

  datatype Step =
    | Claim(h: Hid)
    | Reserve(h: Hid, found: Option<Key>)
    | DiscoveryFails(h: Hid)
    | OpenFails(h: Hid)
    | OpenSucceeds(h: Hid)
    | Close(h: Hid)

  predicate Enabled(s: State, step: Step) {
    match step
    case Claim(h) => h !in s.holders
    case Reserve(h, found) =>
      h in s.holders && s.holders[h].Searching?
      && (found.Some? ==> found.value !in s.claimed && found.value !in s.holders[h].tries)
    case DiscoveryFails(h) => h in s.holders && s.holders[h].Searching?
    case OpenFails(h) => h in s.holders && s.holders[h].Opening? && s.holders[h].tries != []
    case OpenSucceeds(h) => h in s.holders && s.holders[h].Opening? && s.holders[h].tries != []
    case Close(h) => h in s.holders && s.holders[h].Holding?
  }

  function Last(tries: seq<Key>): Key
    requires tries != []
  {
    tries[|tries| - 1]
  }

  function Apply(s: State, step: Step): State
    requires Enabled(s, step)
  {
    match step
    case Claim(h) => s.(holders := s.holders[h := Searching([])])
    case Reserve(h, found) =>
      if found.None? then s.(holders := s.holders[h := Ended])
      else State(s.claimed + {found.value}, s.holders[h := Opening(s.holders[h].tries + [found.value])])
    case DiscoveryFails(h) => s.(holders := s.holders[h := Ended])
    case OpenFails(h) => State(s.claimed - {Last(s.holders[h].tries)}, s.holders[h := Searching(s.holders[h].tries)])
    case OpenSucceeds(h) => s.(holders := s.holders[h := Holding(Last(s.holders[h].tries), false)])
    case Close(h) =>
      if s.holders[h].released then s
      else State(s.claimed - {s.holders[h].key}, s.holders[h := Holding(s.holders[h].key, true)])
  }

  // The key a holder has claimed: while it opens a device, and until its first Close.
  function KeyOf(holder: Holder): Option<Key> {
    match holder
    case Opening(tries) => if tries == [] then None else Some(Last(tries))
    case Holding(key, released) => if released then None else Some(key)
    case _ => None
  }

  ghost predicate Claims(s: State, h: Hid, k: Key) {
    h in s.holders && KeyOf(s.holders[h]) == Some(k)
  }

  predicate NoRepeats(tries: seq<Key>) {
    forall i, j | 0 <= i < j < |tries| :: tries[i] != tries[j]
  }

  ghost predicate Inv(s: State) {
    && (forall k :: k in s.claimed <==> exists h :: Claims(s, h, k))
    && (forall g, h, k :: Claims(s, g, k) && Claims(s, h, k) ==> g == h)
    && (forall h | h in s.holders && (s.holders[h].Searching? || s.holders[h].Opening?) ::
         NoRepeats(s.holders[h].tries))
    && (forall h | h in s.holders && s.holders[h].Opening? :: s.holders[h].tries != [])
  }

  // A holder that does not move keeps its claim, and the claimed keys keep it too.
  lemma OthersKeepTheirClaims(s: State, step: Step, g: Hid, k: Key)
    requires Inv(s) && Enabled(s, step) && g != step.h
    ensures Claims(Apply(s, step), g, k) <==> Claims(s, g, k)
    ensures Claims(s, g, k) ==> k in Apply(s, step).claimed && !Claims(Apply(s, step), step.h, k)
  {
    if Claims(s, g, k) {
      assert k in s.claimed;
      assert !Claims(s, step.h, k);
    }
  }

  lemma OwnClaim(s: State, step: Step, k: Key)
    requires Inv(s) && Enabled(s, step)
    ensures Claims(Apply(s, step), step.h, k) ==> k in Apply(s, step).claimed
    ensures k in Apply(s, step).claimed ==>
      Claims(Apply(s, step), step.h, k) || (k in s.claimed && !Claims(s, step.h, k))
  {
    assert Claims(s, step.h, k) ==> k in s.claimed;
  }

  lemma ClaimedKept(s: State, step: Step, k: Key)
    requires Inv(s) && Enabled(s, step)
    ensures k in Apply(s, step).claimed <==> exists h :: Claims(Apply(s, step), h, k)
  {
    var s' := Apply(s, step);
    OwnClaim(s, step, k);
    if k in s'.claimed && !Claims(s', step.h, k) {
      var h :| Claims(s, h, k);
      OthersKeepTheirClaims(s, step, h, k);
    }
    if h :| h != step.h && Claims(s', h, k) {
      OthersKeepTheirClaims(s, step, h, k);
    }
  }

  lemma UniqueKept(s: State, step: Step, g: Hid, h: Hid, k: Key)
    requires Inv(s) && Enabled(s, step) && Claims(Apply(s, step), g, k) && Claims(Apply(s, step), h, k)
    ensures g == h
  {
    if g != step.h {
      OthersKeepTheirClaims(s, step, g, k);
    }
    if h != step.h {
      OthersKeepTheirClaims(s, step, h, k);
    }
  }

  lemma Preserved(s: State, step: Step)
    requires Inv(s) && Enabled(s, step)
    ensures Inv(Apply(s, step))
  {
    forall k ensures k in Apply(s, step).claimed <==> exists h :: Claims(Apply(s, step), h, k) {
      ClaimedKept(s, step, k);
    }
    forall g, h, k | Claims(Apply(s, step), g, k) && Claims(Apply(s, step), h, k) ensures g == h {
      UniqueKept(s, step, g, h, k);
    }
    hide Claims;
  }

  predicate Initial(s: State) {
    s == State({}, map[])
  }

  datatype Run = First(start: State) | Then(run: Run, step: Step) {
    predicate Valid()
      decreases this, 0
    {
      match this
      case First(start) => Initial(start)
      case Then(run, step) => run.Valid() && Enabled(run.Last(), step)
    }

    function Last(): State
      requires Valid()
      decreases this, 1
    {
      match this
      case First(start) => start
      case Then(run, step) => Apply(run.Last(), step)
    }

    predicate Extends(earlier: Run) {
      this == earlier || (Then? && run.Extends(earlier))
    }
  }

  lemma {:induction false} Reachable(run: Run)
    requires run.Valid()
    ensures Inv(run.Last())
  {
    if run.Then? {
      Reachable(run.run);
      Preserved(run.run.Last(), run.step);
    }
  }

  // The claimed keys are exactly those of opens in progress and of dongles not yet
  // closed, and no two of them hold the same key.
  lemma ClaimedIsHeld(run: Run, k: Key)
    requires run.Valid()
    ensures k in run.Last().claimed <==> exists h :: Claims(run.Last(), h, k)
    ensures forall g, h :: Claims(run.Last(), g, k) && Claims(run.Last(), h, k) ==> g == h
  {
    hide run.Valid, run.Last;
    Reachable(run);
  }

  // A first Close gives back its own key and no other.
  lemma CloseFreesItsOwnKey(run: Run, h: Hid, g: Hid, k: Key)
    requires run.Valid() && Enabled(run.Last(), Close(h))
    ensures g != h ==> (Claims(Apply(run.Last(), Close(h)), g, k) <==> Claims(run.Last(), g, k))
    ensures g != h && Claims(run.Last(), g, k) ==> k in Apply(run.Last(), Close(h)).claimed
    ensures run.Last().holders[h].key in Apply(run.Last(), Close(h)).claimed ==> run.Last().holders[h].released
  {
    hide run.Valid, run.Last;
    Reachable(run);
    var s, s' := run.Last(), Apply(run.Last(), Close(h));
    if g != h && Claims(s, g, k) {
      assert !s.holders[h].released ==> Claims(s, h, s.holders[h].key);
    }
  }

  // When somebody else has claimed the device of a dongle, that dongle has been closed
  // before, and closing it again leaves the new claim alone.
  lemma SecondCloseSparesTheNextHolder(run: Run, h: Hid, g: Hid)
    requires run.Valid() && Enabled(run.Last(), Close(h)) && g != h
    requires Claims(run.Last(), g, run.Last().holders[h].key)
    ensures var s, s', k := run.Last(), Apply(run.Last(), Close(h)), run.Last().holders[h].key;
      s.holders[h].released && Claims(s', g, k) && k in s'.claimed
  {
    hide run.Valid, run.Last;
    Reachable(run);
    var s, k := run.Last(), run.Last().holders[h].key;
    assert !s.holders[h].released ==> Claims(s, h, k);
    CloseFreesItsOwnKey(run, h, g, k);
  }

  lemma ClaimedAndClosed(k: Key) returns (run: Run)
    ensures run.Valid() && run.Last() == State({}, map[0 := Holding(k, true)])
  {
    assert [] + [k] == [k] && {} + {k} == {k} && {k} - {k} == {};
    run := Then(First(State({}, map[])), Claim(0));
    assert run.Last() == State({}, map[0 := Searching([])]);
    run := Then(run, Reserve(0, Some(k)));
    assert run.Last() == State({k}, map[0 := Opening([k])]);
    run := Then(run, OpenSucceeds(0));
    assert run.Last() == State({k}, map[0 := Holding(k, false)]);
    run := Then(run, Close(0));
    assert run.Last() == State({}, map[0 := Holding(k, true)]);
  }

  // That this happens: a dongle is closed, its device goes to another channel, and the
  // dongle is closed again.
  lemma DevicesMoveOn(k: Key) returns (run: Run)
    ensures run.Valid() && Enabled(run.Last(), Close(0))
    ensures run.Last() == State({k}, map[0 := Holding(k, true), 1 := Holding(k, false)])
    ensures Apply(run.Last(), Close(0)) == run.Last()
  {
    assert [] + [k] == [k] && {} + {k} == {k};
    run := ClaimedAndClosed(k);
    run := Then(run, Claim(1));
    assert run.Last() == State({}, map[0 := Holding(k, true), 1 := Searching([])]);
    run := Then(run, Reserve(1, Some(k)));
    assert run.Last() == State({k}, map[0 := Holding(k, true), 1 := Opening([k])]);
    run := Then(run, OpenSucceeds(1));
    assert run.Last() == State({k}, map[0 := Holding(k, true), 1 := Holding(k, false)]);
  }

  // Each call reserves a key at most once.
  lemma EachKeyTriedOnce(run: Run, h: Hid)
    requires run.Valid() && h in run.Last().holders
      && (run.Last().holders[h].Searching? || run.Last().holders[h].Opening?)
    ensures NoRepeats(run.Last().holders[h].tries)
  {
    hide run.Valid, run.Last;
    Reachable(run);
  }

  // ---------- the assigner itself ----------

  lemma OthersLeaveAHolder(s: State, step: Step, h: Hid)
    requires Enabled(s, step) && step.h != h && h in s.holders
    ensures h in Apply(s, step).holders && Apply(s, step).holders[h] == s.holders[h]
  {
  }

  lemma {:induction false} ExtendsThrough(a: Run, b: Run, c: Run)
    requires b.Extends(a) && c.Extends(b)
    ensures c.Extends(a)
  {
    if c != b {
      ExtendsThrough(a, b, c.run);
    }
  }

  // What one type of dongle discovers.
  datatype Discovery = Selectors(scheme: string, found: set<string>) | DiscoveryError

  datatype Reserved = Taken(key: Key) | NoneFree | Failed

  // The world during one round of claim: what each type discovers, whether the device
  // opens, and what the other channels do meanwhile.
  datatype Turn = Turn(types: seq<Discovery>, opens: bool, before: seq<Step>, during: seq<Step>)

  function KeyFor(scheme: string, selector: string): Key {
    scheme + ":" + selector
  }

  // With schemes that have no colon, different devices have different keys.
  lemma {:induction false} KeysTellDevicesApart(scheme: string, selector: string, scheme': string, selector': string)
    requires ':' !in scheme && ':' !in scheme' && KeyFor(scheme, selector) == KeyFor(scheme', selector')
    ensures scheme == scheme' && selector == selector'
  {
    var key := KeyFor(scheme, selector);
    assert key[|scheme|] == ':' && key[|scheme'|] == ':';
    assert forall i | 0 <= i < |scheme| :: key[i] == scheme[i];
    assert forall i | 0 <= i < |scheme'| :: key[i] == scheme'[i];
    assert key[..|scheme|] == scheme && key[..|scheme'|] == scheme';
    assert key[|scheme| + 1..] == selector && key[|scheme'| + 1..] == selector';
  }

  ghost predicate AllTaken(d: Discovery, busy: set<Key>) {
    d.Selectors? && forall sel | sel in d.found :: KeyFor(d.scheme, sel) in busy
  }

  // The first free device: of the first type that has one, with the least selector.
  ghost predicate FirstFree(types: seq<Discovery>, busy: set<Key>, key: Key) {
    exists i, sel | 0 <= i < |types| ::
      && (forall j | 0 <= j < i :: AllTaken(types[j], busy))
      && types[i].Selectors? && sel in types[i].found && key == KeyFor(types[i].scheme, sel) && key !in busy
      && forall other | other in types[i].found && Before(other, sel) :: KeyFor(types[i].scheme, other) in busy
  }

  method FindFree(types: seq<Discovery>, claimed: set<Key>, exclude: set<Key>) returns (r: Reserved)
    ensures match r
      case Taken(key) =>
        && FirstFree(types, claimed + exclude, key)
        && exists i, sel | 0 <= i < |types| && types[i].Selectors? && sel in types[i].found ::
             && key == types[i].scheme + ":" + sel && key !in claimed && key !in exclude
             && (forall j | 0 <= j < i ::
                   types[j].Selectors? && forall other | other in types[j].found ::
                     types[j].scheme + ":" + other in claimed || types[j].scheme + ":" + other in exclude)
             && (forall other | other in types[i].found && Before(other, sel) ::
                   types[i].scheme + ":" + other in claimed || types[i].scheme + ":" + other in exclude)
      case NoneFree =>
        && (forall i | 0 <= i < |types| :: AllTaken(types[i], claimed + exclude))
        && (forall i, other | 0 <= i < |types| && types[i].Selectors? && other in types[i].found ::
              types[i].scheme + ":" + other in claimed || types[i].scheme + ":" + other in exclude)
      case Failed => exists i | 0 <= i < |types| :: types[i].DiscoveryError?
  {
    for i := 0 to |types|
      invariant forall j | 0 <= j < i :: AllTaken(types[j], claimed + exclude)
    {
      if types[i].DiscoveryError? {
        return Failed;
      }
      var sels := SortedNames(types[i].found);
      for n := 0 to |sels|
        invariant forall k | 0 <= k < n :: KeyFor(types[i].scheme, sels[k]) in claimed + exclude
      {
        var k := KeyFor(types[i].scheme, sels[n]);
        if k !in claimed && k !in exclude {
          LeastSoFar(types[i].found, sels, n);
          assert sels[n] in types[i].found by {
            assert sels[n] in sels;
          }
          return Taken(k);
        }
      }
    }
    r := NoneFree;
  }

  lemma LeastSoFar(keys: set<string>, names: seq<string>, n: nat)
    requires Lists(names, keys) && n < |names|
    ensures forall other | other in keys && Before(other, names[n]) :: exists k | 0 <= k < n :: names[k] == other
  {
    forall other | other in keys && Before(other, names[n]) ensures exists k | 0 <= k < n :: names[k] == other {
      assert other in names;
      var k :| 0 <= k < |names| && names[k] == other;
      BeforeIsTotal(names[k], names[n]);
    }
  }

  function Elements(tries: seq<Key>): set<Key> {
    set k | k in tries
  }

  class DongleAssigner {
    var claimed: set<Key>
    var holders: map<Hid, Holder>
    ghost var run: Run

    function View(): State
      reads this
    {
      State(claimed, holders)
    }

    ghost predicate Valid()
      reads this
    {
      run.Valid() && run.Last() == View()
    }

    constructor ()
      ensures Valid() && run.First?
    {
      claimed, holders := {}, map[];
      new;
      run := First(View());
    }

    method Take(step: Step)
      requires Valid() && Enabled(View(), step)
      modifies this
      ensures Valid() && run == Then(old(run), step)
    {
      var next := Apply(View(), step);
      claimed, holders := next.claimed, next.holders;
      run := Then(run, step);
    }

    method Others(h: Hid, steps: seq<Step>, ghost since: Run)
      requires Valid() && h in holders && run.Extends(since)
      modifies this
      ensures Valid() && run.Extends(since) && h in holders && holders[h] == old(holders[h])
    {
      for i := 0 to |steps|
        invariant Valid() && run.Extends(since) && h in holders && holders[h] == old(holders[h])
      {
        if steps[i].h != h && Enabled(View(), steps[i]) {
          OthersLeaveAHolder(View(), steps[i], h);
          Take(steps[i]);
        }
      }
    }

    // reserve, with its lock: the first free device that has not failed before.
    method ReserveOne(h: Hid, types: seq<Discovery>) returns (r: Reserved)
      requires Valid() && h in holders && holders[h].Searching?
      modifies this
      ensures Valid() && run.Then? && run.run == old(run) && h in holders
      ensures var tries := old(holders[h].tries);
        match r
        case Taken(key) =>
          && FirstFree(types, old(claimed) + Elements(tries), key) && key !in old(claimed) && key !in tries
          && holders[h] == Opening(tries + [key]) && claimed == old(claimed) + {key}
        case NoneFree =>
          && (forall i | 0 <= i < |types| :: AllTaken(types[i], old(claimed) + Elements(tries)))
          && holders[h] == Ended && claimed == old(claimed)
        case Failed =>
          (exists i | 0 <= i < |types| :: types[i].DiscoveryError?) && holders[h] == Ended && claimed == old(claimed)
    {
      var tries := holders[h].tries;
      r := FindFree(types, claimed, Elements(tries));
      hide FirstFree, AllTaken;
      match r {
        case Taken(key) =>
          FirstFreeIsFree(types, claimed + Elements(tries), key);
          run := Then(run, Reserve(h, Some(key)));
          claimed := claimed + {key};
          holders := holders[h := Opening(tries + [key])];
        case NoneFree =>
          run := Then(run, Reserve(h, None));
          holders := holders[h := Ended];
        case Failed =>
          run := Then(run, DiscoveryFails(h));
          holders := holders[h := Ended];
      }
    }

    // open, and unclaim if it fails.
    method OpenReserved(h: Hid, opens: bool)
      requires Valid() && h in holders && holders[h].Opening? && holders[h].tries != []
      modifies this
      ensures Valid() && run.Then? && run.run == old(run) && h in holders
      ensures var tries := old(holders[h].tries);
        && holders[h] == (if opens then Holding(Last(tries), false) else Searching(tries))
        && claimed == (if opens then old(claimed) else old(claimed) - {Last(tries)})
    {
      var tries := holders[h].tries;
      if opens {
        run := Then(run, OpenSucceeds(h));
        holders := holders[h := Holding(Last(tries), false)];
      } else {
        run := Then(run, OpenFails(h));
        claimed := claimed - {Last(tries)};
        holders := holders[h := Searching(tries)];
      }
    }

    method StartSearch(h: Hid)
      requires Valid() && h !in holders
      modifies this
      ensures Valid() && run == Then(old(run), Claim(h)) && h in holders && holders[h] == Searching([])
    {
      run := Then(run, Claim(h));
      holders := holders[h := Searching([])];
    }

    // The loop of claim. When all discoverable devices come from a finite universe, it
    // ends after at most one round for each of them and one more: in the round whose
    // device opens, or in one that finds nothing free but what has failed before.
    method ClaimOne(h: Hid, script: seq<Turn>, universe: set<Key>)
      returns (key: Option<Key>, ghost round: nat, ghost failed: set<Key>)
      requires Valid() && h !in holders && |script| == |universe| + 1
      requires forall n | 0 <= n < |script| :: Within(script[n].types, universe)
      modifies this
      ensures Valid() && run.Extends(old(run)) && h in holders && round < |script| && |failed| <= round
      ensures holders[h] == if key.Some? then Holding(key.value, false) else Ended
      ensures key.Some? ==> key.value !in failed && script[round].opens
      ensures key.Some? ==> exists busy :: FirstFree(script[round].types, busy, key.value)
      ensures key.None? ==>
        || (exists i | 0 <= i < |script[round].types| :: script[round].types[i].DiscoveryError?)
        || (forall i | 0 <= i < |script[round].types| :: AllTaken(script[round].types[i], claimed + failed))
    {
      hide run.Valid, run.Last, AllTaken, Within;
      StartSearch(h);
      for n := 0 to |script|
        invariant Valid() && run.Extends(old(run)) && h in holders && holders[h].Searching?
        invariant |holders[h].tries| == n && NoRepeats(holders[h].tries) && Elements(holders[h].tries) <= universe
      {
        var turn := script[n];
        Others(h, turn.before, old(run));
        round, failed := n, Elements(holders[h].tries);
        NoMoreThanTries(holders[h].tries);
        var r := ReserveOne(h, turn.types);
        if !r.Taken? {
          return None, round, failed;
        }
        FirstFreeIsWithin(turn.types, universe, r.key);
        Others(h, turn.during, old(run));
        OpenReserved(h, turn.opens);
        if turn.opens {
          return Some(r.key), round, failed;
        }
      }
      TriesFit(holders[h].tries, universe);
      assert false;
    }

    // claimedDongle.Close: the claim goes back once, however often it is called.
    method CloseDongle(h: Hid)
      requires Valid() && h in holders && holders[h].Holding?
      modifies this
      ensures Valid() && run == Then(old(run), Close(h))
      ensures h in holders && holders[h] == Holding(old(holders[h].key), true)
      ensures claimed == if old(holders[h].released) then old(claimed) else old(claimed) - {old(holders[h].key)}
    {
      run := Then(run, Close(h));
      if !holders[h].released {
        claimed := claimed - {holders[h].key};
        holders := holders[h := Holding(holders[h].key, true)];
      }
    }
  }

  // Everything discovered comes from the universe.
  ghost predicate Within(types: seq<Discovery>, universe: set<Key>) {
    forall i, sel | 0 <= i < |types| && types[i].Selectors? && sel in types[i].found ::
      KeyFor(types[i].scheme, sel) in universe
  }

  lemma FirstFreeIsFree(types: seq<Discovery>, busy: set<Key>, key: Key)
    requires FirstFree(types, busy, key)
    ensures key !in busy
  {
  }

  lemma FirstFreeIsWithin(types: seq<Discovery>, universe: set<Key>, key: Key)
    requires Within(types, universe) && exists busy :: FirstFree(types, busy, key)
    ensures key in universe
  {
  }

  lemma {:induction false} NoMoreThanTries(tries: seq<Key>)
    ensures |Elements(tries)| <= |tries|
  {
    if tries != [] {
      var n := |tries| - 1;
      NoMoreThanTries(tries[..n]);
      assert tries == tries[..n] + [tries[n]];
      assert Elements(tries) == Elements(tries[..n]) + {tries[n]};
    }
  }

  // Distinct tries from a finite universe cannot outnumber it.
  lemma {:induction false} TriesFit(tries: seq<Key>, universe: set<Key>)
    requires NoRepeats(tries) && Elements(tries) <= universe
    ensures |tries| <= |universe|
  {
    if tries != [] {
      var last := Last(tries);
      assert last in Elements(tries);
      TriesFit(tries[..|tries| - 1], universe - {last});
    }
  }
}
