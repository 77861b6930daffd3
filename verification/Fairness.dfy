/** Fairness of the rounds of one channel's poller in lib/site/bridge/bridge.go, over the
    runs of its scheduler. */
module Fairness {
  import opened Pollers
  import opened Rounds
  import opened Modulo

  // A round that found nodes: its snapshot, and the index its sweep started at.
  datatype Taken = Taken(nodes: seq<Job>, start: nat)

  // The rounds of one poller, in order.
  ghost function TakenIn(run: Run, p: Pid): seq<Taken>
    requires run.Valid()
  {
    match run
    case First(_) => []
    case Then(earlier, step) =>
      if step == Round(p) && run.Last().pollers[p].pc.Sweeping? then
        TakenIn(earlier, p) + [Taken(run.Last().pollers[p].pc.snapshot, run.Last().pollers[p].pc.start)]
      else TakenIn(earlier, p)
  }

  // Where a round would start if the cursor were taken from the rounds before it.
  function Expected(rounds: seq<Taken>, k: nat): nat
    requires k <= |rounds|
  {
    if k == 0 then 0 else rounds[k - 1].start + 1
  }

  ghost predicate Rotates(rounds: seq<Taken>) {
    forall k | 0 <= k < |rounds| ::
      && Distinct(rounds[k].nodes) && rounds[k].nodes != []
      && rounds[k].start == Expected(rounds, k) % |rounds[k].nodes|
  }

  lemma CursorAfterStep(s: Sched, step: Step, p: Pid)
    requires Enabled(s, step) && p < |Apply(s, step).pollers|
    requires !(step == Round(p) && Apply(s, step).pollers[p].pc.Sweeping?)
    ensures Apply(s, step).pollers[p].cursor == if p < |s.pollers| then s.pollers[p].cursor else 0
  {
    hide Filter, LiveJobs;
  }

  lemma RoundTakes(s: Sched, p: Pid)
    requires Placed(s) && Enabled(s, Round(p)) && Apply(s, Round(p)).pollers[p].pc.Sweeping?
    ensures var Poller(_, _, cursor, _, pc) := Apply(s, Round(p)).pollers[p];
      && Distinct(pc.snapshot) && pc.snapshot != []
      && pc.start == s.pollers[p].cursor % |pc.snapshot| && cursor == pc.start + 1
  {
    FilterKeepsDistinct(s.pollers[p].nodes, LiveJobs(s));
    hide Filter, LiveJobs;
  }

  lemma PollersStay(s: Sched, step: Step)
    requires Enabled(s, step)
    ensures |s.pollers| <= |Apply(s, step).pollers|
  {
    hide Filter, LiveJobs;
  }

  lemma OneMoreRound(rounds: seq<Taken>, round: Taken)
    requires Rotates(rounds) && Distinct(round.nodes) && round.nodes != []
    requires round.start == Expected(rounds, |rounds|) % |round.nodes|
    ensures Rotates(rounds + [round]) && Expected(rounds + [round], |rounds| + 1) == round.start + 1
  {
    var more := rounds + [round];
    hide Distinct;
    forall k | 0 <= k < |more|
      ensures Distinct(more[k].nodes) && more[k].nodes != [] && more[k].start == Expected(more, k) % |more[k].nodes|
    {
      assert Expected(more, k) == Expected(rounds, k);
    }
  }

  lemma {:induction false} RoundsRotate(run: Run, p: Pid)
    requires run.Valid()
    ensures Rotates(TakenIn(run, p))
    ensures p < |run.Last().pollers| ==> run.Last().pollers[p].cursor == Expected(TakenIn(run, p), |TakenIn(run, p)|)
    ensures p >= |run.Last().pollers| ==> TakenIn(run, p) == []
  {
    if run.Then? {
      RoundsRotate(run.run, p);
      var s := run.run.Last();
      PollersStay(s, run.step);
      hide Rotates, Expected, Inv, LiveJobs, Filter;
      if run.step == Round(p) && run.Last().pollers[p].pc.Sweeping? {
        Pollers.Reachable(run.run);
        PlacedOfInv(s);
        RoundTakes(s, p);
        hide Apply, Enabled;
        OneMoreRound(TakenIn(run.run, p), Taken(run.Last().pollers[p].pc.snapshot, run.Last().pollers[p].pc.start));
      } else if p < |run.Last().pollers| {
        CursorAfterStep(s, run.step, p);
        hide Apply, Enabled;
      }
    } else {
      NoRounds(run, p);
    }
  }

  lemma NoRounds(run: Run, p: Pid)
    requires run.Valid() && run.First?
    ensures run.Last().pollers == [] && TakenIn(run, p) == [] && Rotates([])
  {
  }

  lemma PlacedOfInv(s: Sched)
    requires Inv(s)
    ensures Placed(s)
  {
  }

  // Rounds over the same nodes start where Start says.
  lemma {:induction false} StartsFollow(rounds: seq<Taken>, first: nat, ahead: nat, n: nat)
    requires Rotates(rounds) && first + ahead < |rounds| && n > 0
    requires forall k | first <= k <= first + ahead :: |rounds[k].nodes| == n
    ensures rounds[first + ahead].start == Start(n, rounds[first].start, ahead)
  {
    if ahead > 0 {
      StartsFollow(rounds, first, ahead - 1, n);
    } else {
      ModBelow(rounds[first].start, n);
    }
  }

  lemma IndexLeadsOnce(rounds: seq<Taken>, first: nat, nodes: seq<Job>, i: nat) returns (round: nat)
    requires Rotates(rounds) && i < |nodes| && first + |nodes| <= |rounds|
    requires forall k | first <= k < first + |nodes| :: rounds[k].nodes == nodes
    ensures first <= round < first + |nodes| && rounds[round].start == i
    ensures forall other | first <= other < first + |nodes| && rounds[other].start == i :: other == round
  {
    var n, from := |nodes|, rounds[first].start;
    var ahead := EachNodeStartsOnce(n, from, 0, i);
    round := first + ahead;
    forall other | first <= other < first + n ensures rounds[other].start == Start(n, from, other - first) {
      StartsFollow(rounds, first, other - first, n);
    }
    hide Start, Rotates;
    forall other | first <= other < first + n && rounds[other].start == i ensures other == round {
      assert Start(n, from, other - first) == i;
    }
  }

  lemma StartsAreIndices(rounds: seq<Taken>, k: nat)
    requires Rotates(rounds) && k < |rounds|
    ensures rounds[k].start < |rounds[k].nodes| && Distinct(rounds[k].nodes)
  {
  }

  // While its nodes stay the same, any n consecutive rounds of a poller over n nodes
  // start exactly once at each of them, whatever else happens in the run.
  lemma EachNodeLeadsOnce(run: Run, p: Pid, first: nat, nodes: seq<Job>, j: Job) returns (round: nat)
    requires run.Valid() && j in nodes && first + |nodes| <= |TakenIn(run, p)|
    requires forall k | first <= k < first + |nodes| :: TakenIn(run, p)[k].nodes == nodes
    ensures var rounds := TakenIn(run, p);
      && (forall k | first <= k < first + |nodes| :: rounds[k].start < |nodes|)
      && first <= round < first + |nodes| && nodes[rounds[round].start] == j
      && forall other | first <= other < first + |nodes| && nodes[rounds[other].start] == j :: other == round
  {
    hide run.Valid, run.Last, TakenIn, Rotates, Expected;
    RoundsRotate(run, p);
    var rounds := TakenIn(run, p);
    var i :| 0 <= i < |nodes| && nodes[i] == j;
    round := IndexLeadsOnce(rounds, first, nodes, i);
    forall k | first <= k < first + |nodes| ensures rounds[k].start < |nodes| && Distinct(nodes) {
      StartsAreIndices(rounds, k);
    }
  }
}
