/** The rounds of one channel's poller in lib/site/bridge/bridge.go: the list of jobs,
    compacted in place, the snapshot, and the rotation of the first node. */
module Rounds {
  import opened Modulo

  type Job = nat  // a polledNode

  predicate Distinct(s: seq<Job>) {
    forall i, j | 0 <= i < j < |s| :: s[i] != s[j]
  }

  // The jobs that are still live, in their order.
  function Filter(s: seq<Job>, live: set<Job>): (r: seq<Job>)
    ensures |r| <= |s|
    ensures forall j :: j in r <==> j in s && j in live
  {
    if s == [] then []
    else
      var rest := Filter(s[..|s| - 1], live);
      if s[|s| - 1] in live then rest + [s[|s| - 1]] else rest
  }

  lemma {:induction false} FilterKeepsDistinct(s: seq<Job>, live: set<Job>)
    requires Distinct(s)
    ensures Distinct(Filter(s, live))
  {
    if s != [] {
      FilterKeepsDistinct(s[..|s| - 1], live);
    }
  }

  // Filtering keeps every live job as often as it was there, and no other.
  lemma {:induction false} FilterCounts(s: seq<Job>, live: set<Job>, j: Job)
    ensures multiset(Filter(s, live))[j] == if j in live then multiset(s)[j] else 0
  {
    if s != [] {
      FilterCounts(s[..|s| - 1], live, j);
      assert s == s[..|s| - 1] + [s[|s| - 1]];
    }
  }

  // And their order stays.
  lemma {:induction false} FilterKeepsOrder(s: seq<Job>, live: set<Job>) returns (at: seq<nat>)
    ensures |at| == |Filter(s, live)|
    ensures forall k | 0 <= k < |at| :: at[k] < |s| && Filter(s, live)[k] == s[at[k]]
    ensures forall k, m | 0 <= k < m < |at| :: at[k] < at[m]
  {
    if s == [] {
      at := [];
    } else {
      at := FilterKeepsOrder(s[..|s| - 1], live);
      if s[|s| - 1] in live {
        at := at + [|s| - 1];
      }
    }
  }

  class ChannelPoller {
    var backing: array<Job>
    var length: nat
    var cursor: nat

    ghost predicate Valid()
      reads this
    {
      length <= backing.Length
    }

    function Nodes(): seq<Job>
      reads this, backing
      requires Valid()
    {
      backing[..length]
    }

    constructor (job: Job)
      ensures Valid() && Nodes() == [job] && cursor == 0 && fresh(backing)
    {
      backing := new Job[1](_ => job);
      length, cursor := 1, 0;
    }

    // Go's append: in place while there is room, and otherwise into a larger array.
    method Add(job: Job)
      requires Valid()
      modifies this, backing
      ensures Valid() && Nodes() == old(Nodes()) + [job] && cursor == old(cursor)
      ensures backing == old(backing) || fresh(backing)
    {
      if length == backing.Length {
        var larger := new Job[2 * length + 1](_ => job);
        for i := 0 to length
          modifies larger
          invariant forall k | 0 <= k < i :: larger[k] == backing[k]
        {
          larger[i] := backing[i];
        }
        backing := larger;
      }
      backing[length] := job;
      length := length + 1;
    }

    // The compaction writes over the list it reads, and never ahead of its reading.
    method Compact(live: set<Job>)
      requires Valid()
      modifies this`length, backing
      ensures Valid() && Nodes() == Filter(old(Nodes()), live)
    {
      var active := 0;
      for i := 0 to length
        invariant active <= i
        invariant backing[..active] == Filter(old(backing[..i]), live)
        invariant forall k | i <= k < backing.Length :: backing[k] == old(backing[k])
      {
        var job := backing[i];
        assert old(backing[..i + 1])[..i] == old(backing[..i]);
        if job in live {
          backing[active] := job;
          active := active + 1;
        }
      }
      length := active;
    }

    // The snapshot is an array of its own: a later Add or Compact leaves it alone.
    method Round(live: set<Job>) returns (nodes: array<Job>, start: nat)
      requires Valid()
      modifies this, backing
      ensures Valid() && Nodes() == Filter(old(Nodes()), live)
      ensures fresh(nodes) && nodes != backing && backing == old(backing) && nodes[..] == Nodes()
      ensures if Nodes() == [] then start == 0 && cursor == old(cursor)
              else start == old(cursor) % |Nodes()| && cursor == start + 1
    {
      Compact(live);
      nodes := new Job[length](i requires 0 <= i < length <= backing.Length reads this, backing => backing[i]);
      start := 0;
      if nodes.Length == 0 {
        return;
      }
      start := cursor % nodes.Length;
      cursor := start + 1;
    }

    // The walk over a snapshot.
    method Walk(nodes: array<Job>, start: nat) returns (visited: seq<Job>)
      requires start < nodes.Length
      ensures visited == Rotated(nodes[..], start) && |visited| == nodes.Length
      ensures forall offset | 0 <= offset < nodes.Length ::
        visited[offset] == nodes[(start + offset) % nodes.Length]
    {
      visited := [];
      for offset := 0 to nodes.Length
        invariant visited == Rotated(nodes[..], start)[..offset]
      {
        RotatedAt(nodes[..], start, offset);
        visited := visited + [nodes[(start + offset) % nodes.Length]];
      }
      forall offset | 0 <= offset < nodes.Length {
        RotatedAt(nodes[..], start, offset);
      }
    }
  }

  function Rotated(s: seq<Job>, start: nat): seq<Job>
    requires start <= |s|
  {
    s[start..] + s[..start]
  }

  lemma RotatedAt(s: seq<Job>, start: nat, offset: nat)
    requires start < |s| && offset < |s|
    ensures Rotated(s, start)[offset] == s[(start + offset) % |s|]
  {
    if start + offset < |s| {
      ModBelow(start + offset, |s|);
    } else {
      ModStep(start + offset - |s|, |s|);
      ModBelow(start + offset - |s|, |s|);
    }
  }

  // A walk visits every node of its snapshot exactly as often as it is there.
  lemma WalkVisitsAll(s: seq<Job>, start: nat)
    requires start <= |s|
    ensures multiset(Rotated(s, start)) == multiset(s)
  {
    assert s == s[..start] + s[start..];
  }

  // ---------- fairness ----------

  // The cursor after a number of rounds over n nodes.
  function CursorAfter(n: nat, cursor: nat, rounds: nat): nat
    requires n > 0
  {
    if rounds == 0 then cursor else CursorAfter(n, cursor, rounds - 1) % n + 1
  }

  // Where a round over n nodes starts.
  function Start(n: nat, cursor: nat, round: nat): (r: nat)
    requires n > 0
    ensures r < n
  {
    CursorAfter(n, cursor, round) % n
  }

  lemma {:induction false} StartsAdvance(n: nat, cursor: nat, round: nat)
    requires n > 0
    ensures Start(n, cursor, round) == (cursor + round) % n
  {
    if round > 0 {
      StartsAdvance(n, cursor, round - 1);
      ModSucc(CursorAfter(n, cursor, round - 1), n);
      ModSucc(cursor + round - 1, n);
      ModSucc(CursorAfter(n, cursor, round - 1) % n, n);
    }
  }

  // While the nodes stay the same, any n consecutive rounds start once at each node.
  lemma EachNodeStartsOnce(n: nat, cursor: nat, first: nat, node: nat) returns (round: nat)
    requires node < n
    ensures first <= round < first + n && Start(n, cursor, round) == node
    ensures forall other | first <= other < first + n && Start(n, cursor, other) == node :: other == round
  {
    round := first + Ahead(cursor + first, node, n);
    StartIs(n, cursor, first, round - first);
    forall other | first <= other < first + n && Start(n, cursor, other) == node ensures other == round {
      StartIs(n, cursor, first, other - first);
    }
  }

  lemma StartIs(n: nat, cursor: nat, first: nat, ahead: nat)
    requires ahead < n
    ensures var base := (cursor + first) % n;
      Start(n, cursor, first + ahead) == if base + ahead < n then base + ahead else base + ahead - n
  {
    StartsAdvance(n, cursor, first + ahead);
    var a := cursor + first;
    if a % n + ahead < n {
      ModUnique(a + ahead, a / n, a % n + ahead, n);
    } else {
      ModUnique(a + ahead, a / n + 1, a % n + ahead - n, n);
    }
  }
}
