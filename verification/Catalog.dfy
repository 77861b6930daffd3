/** The diagnostics catalog of lib/site/bridge/diag.go: how names become path components,
    when they collide, and that a catalog that passes the check of Serve has exactly as
    many paths as it has values. */
module Catalog {
  import opened Names
  import opened Publisher

  // ---------- path components ----------

  function Escaped(c: char): string {
    if c == '_' then "_u" else if c == '.' then "_" else [c]
  }

  function PathComponent(name: string): string {
    if name == [] then [] else Escaped(name[0]) + PathComponent(name[1..])
  }

  lemma {:induction false} ComponentsHaveNoDots(name: string)
    ensures '.' !in PathComponent(name)
  {
    if name != [] {
      ComponentsHaveNoDots(name[1..]);
    }
  }

  // The one ambiguity: a dot before a u reads like an underscore.
  function Normal(name: string): string {
    if name == [] then []
    else if |name| >= 2 && name[0] == '.' && name[1] == 'u' then ['_'] + Normal(name[2..])
    else [name[0]] + Normal(name[1..])
  }

  predicate HasNoDotU(name: string) {
    |name| >= 2 ==> !(name[0] == '.' && name[1] == 'u') && HasNoDotU(name[1..])
  }

  lemma {:induction false} NormalHasNoDotU(name: string)
    ensures HasNoDotU(Normal(name))
    ensures name != [] && name[0] != '.' ==> Normal(name) != [] && Normal(name)[0] == name[0]
    ensures Normal(name) != [] && Normal(name)[0] == 'u' ==> name[0] == 'u'
  {
    if name != [] {
      if |name| >= 2 && name[0] == '.' && name[1] == 'u' {
        NormalHasNoDotU(name[2..]);
        assert Normal(name)[1..] == Normal(name[2..]);
      } else {
        NormalHasNoDotU(name[1..]);
        assert Normal(name)[1..] == Normal(name[1..]);
      }
    }
  }

  lemma {:induction false} NormalKeepsComponent(name: string)
    ensures PathComponent(Normal(name)) == PathComponent(name)
  {
    if name != [] {
      if |name| >= 2 && name[0] == '.' && name[1] == 'u' {
        NormalKeepsComponent(name[2..]);
        assert Normal(name)[1..] == Normal(name[2..]);
        assert PathComponent(name) == "_" + PathComponent(name[1..]);
        assert name[1..][1..] == name[2..];
        assert PathComponent(name[1..]) == "u" + PathComponent(name[2..]);
      } else {
        NormalKeepsComponent(name[1..]);
        assert Normal(name)[1..] == Normal(name[1..]);
      }
    }
  }

  // On names without a dot before a u nothing is lost.
  lemma {:induction false} InjectiveWithoutDotU(x: string, y: string)
    requires HasNoDotU(x) && HasNoDotU(y) && PathComponent(x) == PathComponent(y)
    ensures x == y
  {
    if x != [] && y != [] {
      SameFirst(x, y);
      assert PathComponent(x)[|Escaped(x[0])|..] == PathComponent(x[1..]);
      assert PathComponent(y)[|Escaped(y[0])|..] == PathComponent(y[1..]);
      InjectiveWithoutDotU(x[1..], y[1..]);
      assert x == [x[0]] + x[1..] && y == [y[0]] + y[1..];
    }
  }

  lemma FirstOfComponent(name: string)
    requires name != []
    ensures |PathComponent(name)| >= 1 && PathComponent(name)[0] == (if name[0] == '.' then '_' else name[0])
    ensures name[0] == '_' ==> |PathComponent(name)| >= 2 && PathComponent(name)[1] == 'u'
    ensures name[0] == '.' && |PathComponent(name)| >= 2 ==> |name| >= 2
    ensures name[0] == '.' ==> PathComponent(name)[1..] == PathComponent(name[1..])
  {
  }

  lemma SameFirst(x: string, y: string)
    requires x != [] && y != [] && HasNoDotU(x) && HasNoDotU(y) && PathComponent(x) == PathComponent(y)
    ensures x[0] == y[0]
  {
    FirstOfComponent(x);
    FirstOfComponent(y);
    if x[0] == '_' && y[0] == '.' {
      FirstOfComponent(y[1..]);
    } else if x[0] == '.' && y[0] == '_' {
      FirstOfComponent(x[1..]);
    }
  }

  // Two names share a path exactly when they are equal once every dot before a u is
  // read as an underscore.
  lemma CollisionIff(x: string, y: string)
    ensures PathComponent(x) == PathComponent(y) <==> Normal(x) == Normal(y)
  {
    NormalKeepsComponent(x);
    NormalKeepsComponent(y);
    NormalHasNoDotU(x);
    NormalHasNoDotU(y);
    if PathComponent(x) == PathComponent(y) {
      InjectiveWithoutDotU(Normal(x), Normal(y));
    }
  }

  lemma DotUCollides()
    ensures PathComponent("a.u") == PathComponent("a_") && "a.u" != "a_"
  {
    CollisionIff("a.u", "a_");
    assert Normal("a.u") == "a_" by {
      assert "a.u"[1..] == ".u" && ".u"[2..] == "";
    }
    assert Normal("a_") == "a_" by {
      assert "a_"[1..] == "_" && "_"[1..] == "";
    }
  }

  // ---------- the fields ----------

  const PACKET_FIELDS: seq<string> := [
    "packet.value.matched", "packet.value.orphan", "packet.value.null", "packet.ack.matched",
    "packet.ack.orphan", "packet.invalid.decode", "packet.invalid.type", "packet.last.received",
    "packet.last.valid"]

  function PacketRank(s: string): nat {
    match |s|
    case 17 => if s[7] == 'v' then 2 else if s[7] == 'a' then 4 else 8
    case 18 => 3
    case 19 => if s[7] == 'v' then 1 else 6
    case 20 => if s[7] == 'v' then 0 else 7
    case 21 => 5
    case _ => 0
  }

  const TRANSACTION_FIELDS: seq<string> := [
    "outcome.success_first", "outcome.success_retry", "outcome.timeout", "outcome.send_error",
    "outcome.canceled", "outcome.no_radio", "attempt.initial", "attempt.retry", "attempt.send_error",
    "attempt.timeout", "latency.success.count", "latency.success.microseconds"]

  function TransactionRank(s: string): nat {
    match |s|
    case 13 => 7
    case 15 => if s[0] == 'o' then 2 else (if s[8] == 'i' then 6 else 9)
    case 16 => if s[8] == 'c' then 4 else 5
    case 18 => if s[0] == 'o' then 3 else 8
    case 21 => if s[16] == 'f' then 0 else if s[16] == 'r' then 1 else 10
    case 28 => 11
    case _ => 0
  }

  const HUB_FIELDS: seq<string> := [
    "schema.version", "process.started", "publisher.batch.success", "publisher.batch.error",
    "publisher.values.sent", "publisher.values.coalesced", "publisher.last.success", "publisher.last.error",
    "process.heartbeat", "latency.success.count", "latency.success.microseconds",
    "latency.success.bucket.le_0_025", "latency.success.bucket.le_0_05", "latency.success.bucket.le_0_1",
    "latency.success.bucket.le_0_2", "latency.success.bucket.le_0_5", "latency.success.bucket.le_1",
    "latency.success.bucket.le_2", "latency.success.bucket.le_plus_Inf"]

  function HubRank(s: string): nat {
    match |s|
    case 14 => 0
    case 15 => 1
    case 17 => 8
    case 20 => 7
    case 21 => if s[10] == 'b' then 3 else if s[10] == 'v' then 4 else 9
    case 22 => 6
    case 23 => 2
    case 26 => 5
    case 27 => if s[26] == '1' then 16 else 17
    case 28 => 10
    case 29 => if s[28] == '1' then 13 else if s[28] == '2' then 14 else 15
    case 30 => 12
    case 31 => 11
    case 34 => 18
    case _ => 0
  }

  const DONGLE_FIELDS: seq<string> := [
    "state", "state.since", "connection.open.attempt", "connection.open.success", "connection.open.error",
    "connection.open.last_attempt", "connection.open.last_error", "connection.connected_at",
    "connection.disconnected_at", "connection.disconnect.total", "connection.disconnect.send_error",
    "connection.disconnect.receive_error", "packet.tx.attempt", "packet.tx.success", "packet.tx.offline",
    "packet.tx.error", "packet.rx.success", "packet.rx.error"]

  function DongleRank(s: string): nat {
    match |s|
    case 5 => 0
    case 11 => 1
    case 15 => if s[7] == 't' then 15 else 17
    case 17 => if s[10] == 'a' then 12 else if s[10] == 's' then (if s[7] == 't' then 13 else 16) else 14
    case 21 => 4
    case 23 => if s[16] == 'a' then 2 else if s[16] == 's' then 3 else 7
    case 26 => if s[11] == 'o' then 6 else 8
    case 27 => 9
    case 28 => 5
    case 32 => 10
    case 35 => 11
    case _ => 0
  }

  lemma HubFieldsDiffer()
    ensures |HUB_FIELDS| == 19 && Distinct(HUB_FIELDS)
  {
    assert forall i | 0 <= i < 19 :: HubRank(HUB_FIELDS[i]) == i;
  }

  lemma PacketFieldsDiffer()
    ensures |PACKET_FIELDS| == 9 && Distinct(PACKET_FIELDS)
  {
    assert forall i | 0 <= i < 9 :: PacketRank(PACKET_FIELDS[i]) == i;
  }

  lemma TransactionFieldsDiffer()
    ensures |TRANSACTION_FIELDS| == 12 && Distinct(TRANSACTION_FIELDS)
  {
    assert forall i | 0 <= i < 12 :: TransactionRank(TRANSACTION_FIELDS[i]) == i;
  }

  lemma DongleFieldsDiffer()
    ensures |DONGLE_FIELDS| == 18 && Distinct(DONGLE_FIELDS)
  {
    assert forall i | 0 <= i < 18 :: DongleRank(DONGLE_FIELDS[i]) == i;
  }

  // ---------- the paths ----------

  function Prefixed(base: string, fields: seq<string>): (r: seq<string>)
    ensures |r| == |fields| && forall i | 0 <= i < |r| :: r[i] == base + fields[i]
  {
    seq(|fields|, i requires 0 <= i < |fields| => base + fields[i])
  }

  lemma PrefixedDiffer(base: string, fields: seq<string>)
    ensures Distinct(Prefixed(base, fields)) <==> Distinct(fields)
  {
    forall i, j | 0 <= i < j < |fields| ensures base + fields[i] == base + fields[j] <==> fields[i] == fields[j] {
      assert (base + fields[i])[|base|..] == fields[i];
      assert (base + fields[j])[|base|..] == fields[j];
    }
  }

  ghost predicate AllHave(paths: seq<string>, at: nat, c: char) {
    forall k | 0 <= k < |paths| :: |paths[k]| > at && paths[k][at] == c
  }

  // Strings that differ at some index.
  lemma DifferAt(a: seq<string>, b: seq<string>, at: nat, x: char, y: char)
    requires x != y && AllHave(a, at, x) && AllHave(b, at, y)
    ensures Apart(a, b)
  {
  }

  function NodeFields(): seq<string> {
    PACKET_FIELDS +
      (Prefixed("transaction.get.", TRANSACTION_FIELDS) + Prefixed("transaction.set.", TRANSACTION_FIELDS))
  }

  lemma NodeFieldsDiffer()
    ensures |NodeFields()| == 33 && Distinct(NodeFields())
  {
    PacketFieldsDiffer();
    TransactionFieldsDiffer();
    var gets, sets := Prefixed("transaction.get.", TRANSACTION_FIELDS),
      Prefixed("transaction.set.", TRANSACTION_FIELDS);
    PrefixedDiffer("transaction.get.", TRANSACTION_FIELDS);
    PrefixedDiffer("transaction.set.", TRANSACTION_FIELDS);
    DifferAt(gets, sets, 12, 'g', 's');
    JoinedDiffer(gets, sets);
    PacketFieldsStartWithP();
    DifferAt(PACKET_FIELDS, gets + sets, 0, 'p', 't');
    JoinedDiffer(PACKET_FIELDS, gets + sets);
  }

  lemma PacketFieldsStartWithP()
    ensures AllHave(PACKET_FIELDS, 0, 'p')
  {
  }

  function Base(prefix: string, scope: string, name: string): string {
    prefix + scope + PathComponent(name) + "."
  }

  // The paths of all nodes or of all channels.
  function Scope(prefix: string, scope: string, names: seq<string>, fields: seq<string>): (r: seq<string>)
    ensures |r| == |fields| * |names|
  {
    if names == [] then []
    else
      var n := |names| - 1;
      assert |fields| * (n + 1) == |fields| * n + |fields|;
      Scope(prefix, scope, names[..n], fields) + Prefixed(Base(prefix, scope, names[n]), fields)
  }

  function Paths(prefix: string, nodes: seq<string>, dongles: seq<string>): seq<string> {
    Prefixed(prefix + ".hub.main.", HUB_FIELDS)
    + (Scope(prefix, ".node.", nodes, NodeFields()) + Scope(prefix, ".channel.", dongles, DONGLE_FIELDS))
  }

  // No two names of a scope have the same component.
  ghost predicate NoCollision(names: seq<string>) {
    forall i, j | 0 <= i < j < |names| :: PathComponent(names[i]) != PathComponent(names[j])
  }

  // ---------- the components and paths of the repository's tests ----------

  lemma {:induction false} ComponentsJoin(a: string, b: string)
    ensures PathComponent(a + b) == PathComponent(a) + PathComponent(b)
  {
    if a == [] {
      assert a + b == b;
    } else {
      assert (a + b)[1..] == a[1..] + b;
      ComponentsJoin(a[1..], b);
    }
  }

  lemma {:induction false} PlainStays(name: string)
    requires '_' !in name && '.' !in name
    ensures PathComponent(name) == name
  {
    if name != [] {
      PlainStays(name[1..]);
      assert name == [name[0]] + name[1..];
    }
  }

  lemma OneSpecial(a: string, c: char, b: string)
    requires '_' !in a && '.' !in a && '_' !in b && '.' !in b && (c == '_' || c == '.')
    ensures PathComponent(a + [c] + b) == a + (if c == '_' then "_u" else "_") + b
  {
    ComponentsJoin(a + [c], b);
    ComponentsJoin(a, [c]);
    PlainStays(a);
    PlainStays(b);
    assert [c][1..] == [];
    assert PathComponent([c]) == if c == '_' then "_u" else "_";
    hide PathComponent;
  }

  lemma TestedComponents()
    ensures PathComponent("cpg.floor") == "cpg_floor" && PathComponent("cpg_floor") == "cpg_ufloor"
    ensures PathComponent("cpg-floor") == "cpg-floor"
    ensures PathComponent("a.u") == "a_u" && PathComponent("a_") == "a_u"
    ensures PathComponent("basement.fan") == "basement_fan"
  {
    hide PathComponent;
    OneSpecial("cpg", '.', "floor");
    OneSpecial("cpg", '_', "floor");
    OneSpecial("basement", '.', "fan");
    OneSpecial("a", '.', "u");
    OneSpecial("a", '_', "");
    PlainStays("cpg-floor");
    assert "cpg" + ['.'] + "floor" == "cpg.floor" && "cpg" + "_" + "floor" == "cpg_floor";
    assert "cpg" + ['_'] + "floor" == "cpg_floor" && "cpg" + "_u" + "floor" == "cpg_ufloor";
    assert "basement" + ['.'] + "fan" == "basement.fan" && "basement" + "_" + "fan" == "basement_fan";
    assert "a" + ['.'] + "u" == "a.u" && "a" + "_" + "u" == "a_u";
    assert "a" + ['_'] + "" == "a_" && "a" + "_u" + "" == "a_u";
  }

  // A field of the only node, and of the only channel.
  lemma OnlyNodePath(prefix: string, node: string, dongle: string, f: nat)
    requires f < |NodeFields()|
    ensures prefix + ".node." + PathComponent(node) + "." + NodeFields()[f] in Paths(prefix, [node], [dongle])
  {
    hide NodeFields, PathComponent, HUB_FIELDS, DONGLE_FIELDS;
    var k := ScopeHas(prefix, ".node.", [node], NodeFields(), 0, f);
    hide Scope;
    assert Scope(prefix, ".node.", [node], NodeFields())[k] in Paths(prefix, [node], [dongle]);
  }

  lemma OnlyDonglePath(prefix: string, node: string, dongle: string, f: nat)
    requires f < |DONGLE_FIELDS|
    ensures prefix + ".channel." + PathComponent(dongle) + "." + DONGLE_FIELDS[f] in Paths(prefix, [node], [dongle])
  {
    hide NodeFields, PathComponent, HUB_FIELDS;
    var k := ScopeHas(prefix, ".channel.", [dongle], DONGLE_FIELDS, 0, f);
    hide Scope;
    assert Scope(prefix, ".channel.", [dongle], DONGLE_FIELDS)[k] in Paths(prefix, [node], [dongle]);
  }

  lemma HubPath(prefix: string, node: string, dongle: string, f: nat)
    requires f < |HUB_FIELDS|
    ensures prefix + ".hub.main." + HUB_FIELDS[f] in Paths(prefix, [node], [dongle])
  {
    hide NodeFields, PathComponent, Scope;
    var hub := Prefixed(prefix + ".hub.main.", HUB_FIELDS);
    assert hub[f] in hub;
  }

  lemma NodeFieldAt(f: nat)
    requires f < 33
    ensures |NodeFields()| == 33
    ensures NodeFields()[f] ==
      if f < 9 then PACKET_FIELDS[f]
      else if f < 21 then "transaction.get." + TRANSACTION_FIELDS[f - 9]
        else "transaction.set." + TRANSACTION_FIELDS[f - 21]
  {
    PacketFieldsDiffer();
    TransactionFieldsDiffer();
    hide PACKET_FIELDS, TRANSACTION_FIELDS, Distinct;
  }

  // The paths that the repository's test of the publisher expects.
  lemma TestedPacketPaths()
    ensures var paths, base := Paths("diag", ["basement.fan"], ["far"]), "diag.node.basement_fan.";
      && base + "packet.value.matched" in paths && base + "packet.value.orphan" in paths
      && base + "packet.value.null" in paths && base + "packet.ack.matched" in paths
      && base + "packet.last.received" in paths
  {
    TestedComponents();
    hide Paths, NodeFields, PathComponent, TRANSACTION_FIELDS, Distinct;
    assert "diag" + ".node." + "basement_fan" + "." == "diag.node.basement_fan.";
    forall f: nat | f < 9 ensures "diag.node.basement_fan." + PACKET_FIELDS[f] in Paths("diag", ["basement.fan"],
      ["far"]) {
      NodeFieldAt(f);
      OnlyNodePath("diag", "basement.fan", "far", f);
    }
    assert PACKET_FIELDS[0] == "packet.value.matched" && PACKET_FIELDS[1] == "packet.value.orphan";
    assert PACKET_FIELDS[2] == "packet.value.null" && PACKET_FIELDS[3] == "packet.ack.matched";
    assert PACKET_FIELDS[7] == "packet.last.received";
  }

  lemma SomeFieldNames()
    ensures TRANSACTION_FIELDS[0] == "outcome.success_first" && TRANSACTION_FIELDS[1] == "outcome.success_retry"
    ensures TRANSACTION_FIELDS[2] == "outcome.timeout" && TRANSACTION_FIELDS[7] == "attempt.retry"
    ensures TRANSACTION_FIELDS[11] == "latency.success.microseconds"
    ensures DONGLE_FIELDS[2] == "connection.open.attempt" && DONGLE_FIELDS[15] == "packet.tx.error"
    ensures HUB_FIELDS[0] == "schema.version" && HUB_FIELDS[18] == "latency.success.bucket.le_plus_Inf"
  {
  }

  lemma TransactionPath(isGet: bool, f: nat)
    requires f < 12
    ensures "diag.node.basement_fan." + ((if isGet then "transaction.get."
      else "transaction.set.") + TRANSACTION_FIELDS[f])
      in Paths("diag", ["basement.fan"], ["far"])
  {
    hide Paths, NodeFields, PathComponent, PACKET_FIELDS, TRANSACTION_FIELDS;
    TestedComponents();
    assert "diag" + ".node." + "basement_fan" + "." == "diag.node.basement_fan.";
    NodeFieldAt(if isGet then 9 + f else 21 + f);
    OnlyNodePath("diag", "basement.fan", "far", if isGet then 9 + f else 21 + f);
  }

  lemma TestedTransactionPaths()
    ensures var paths, base := Paths("diag", ["basement.fan"], ["far"]), "diag.node.basement_fan.";
      && base + ("transaction.get." + "outcome.success_first") in paths
      && base + ("transaction.get." + "outcome.timeout") in paths
      && base + ("transaction.get." + "attempt.retry") in paths
      && base + ("transaction.get." + "latency.success.microseconds") in paths
      && base + ("transaction.set." + "outcome.success_retry") in paths
  {
    hide Paths, TRANSACTION_FIELDS, DONGLE_FIELDS, HUB_FIELDS;
    SomeFieldNames();
    TransactionPath(true, 0);
    TransactionPath(true, 2);
    TransactionPath(true, 7);
    TransactionPath(true, 11);
    TransactionPath(false, 1);
  }

  lemma FarPath(f: nat)
    requires f < |DONGLE_FIELDS|
    ensures "diag.channel.far." + DONGLE_FIELDS[f] in Paths("diag", ["basement.fan"], ["far"])
  {
    hide Paths, NodeFields, PathComponent, DONGLE_FIELDS;
    PlainStays("far");
    OnlyDonglePath("diag", "basement.fan", "far", f);
    assert "diag" + ".channel." + "far" + "." == "diag.channel.far.";
  }

  lemma MainPath(f: nat)
    requires f < |HUB_FIELDS|
    ensures "diag.hub.main." + HUB_FIELDS[f] in Paths("diag", ["basement.fan"], ["far"])
  {
    hide Paths, NodeFields, PathComponent, HUB_FIELDS;
    HubPath("diag", "basement.fan", "far", f);
    assert "diag" + ".hub.main." == "diag.hub.main.";
  }

  lemma TestedOtherPaths()
    ensures var paths := Paths("diag", ["basement.fan"], ["far"]);
      && "diag.hub.main." + "schema.version" in paths
      && "diag.hub.main." + "latency.success.bucket.le_plus_Inf" in paths
      && "diag.channel.far." + "connection.open.attempt" in paths
      && "diag.channel.far." + "packet.tx.error" in paths
  {
    HubFieldsDiffer();
    DongleFieldsDiffer();
    hide Paths, TRANSACTION_FIELDS, DONGLE_FIELDS, HUB_FIELDS;
    SomeFieldNames();
    FarPath(2);
    FarPath(15);
    MainPath(0);
    MainPath(18);
  }

  // The part of a string before its first dot.
  function Head(s: string): string {
    if s == [] || s[0] == '.' then [] else [s[0]] + Head(s[1..])
  }

  lemma {:induction false} HeadOfComponent(c: string, rest: string)
    requires '.' !in c
    ensures Head(c + "." + rest) == c
  {
    if c == [] {
      assert c + "." + rest == "." + rest;
    } else {
      assert (c + "." + rest)[1..] == c[1..] + "." + rest;
      HeadOfComponent(c[1..], rest);
      assert c == [c[0]] + c[1..];
    }
  }

  // Paths of different components differ.
  lemma ComponentsApart(prefix: string, scope: string, x: string, y: string, fields: seq<string>)
    requires PathComponent(x) != PathComponent(y)
    ensures Apart(Prefixed(Base(prefix, scope, x), fields), Prefixed(Base(prefix, scope, y), fields))
  {
    ComponentsHaveNoDots(x);
    ComponentsHaveNoDots(y);
    forall i, j | 0 <= i < |fields| && 0 <= j < |fields|
      ensures Base(prefix, scope, x) + fields[i] != Base(prefix, scope, y) + fields[j]
    {
      PathHead(prefix, scope, x, fields[i]);
      PathHead(prefix, scope, y, fields[j]);
    }
  }

  lemma PathHead(prefix: string, scope: string, name: string, field: string)
    ensures |Base(prefix, scope, name) + field| >= |prefix + scope|
    ensures Head((Base(prefix, scope, name) + field)[|prefix + scope|..]) == PathComponent(name)
  {
    ComponentsHaveNoDots(name);
    HeadOfComponent(PathComponent(name), field);
    assert (Base(prefix, scope, name) + field)[|prefix + scope|..] == PathComponent(name) + "." + field;
  }

  // A path of a scope belongs to some name.
  lemma {:induction false} ScopeMember(prefix: string, scope: string, names: seq<string>, fields: seq<string>, k: nat)
    returns (i: nat, f: nat)
    requires k < |Scope(prefix, scope, names, fields)|
    ensures i < |names| && f < |fields|
    ensures Scope(prefix, scope, names, fields)[k] == Base(prefix, scope, names[i]) + fields[f]
  {
    var n := |names| - 1;
    var before := Scope(prefix, scope, names[..n], fields);
    if k < |before| {
      i, f := ScopeMember(prefix, scope, names[..n], fields, k);
    } else {
      i, f := n, k - |before|;
    }
  }

  lemma {:induction false} ScopeHas(prefix: string, scope: string, names: seq<string>, fields: seq<string>, i: nat,
                                      f: nat)
    returns (k: nat)
    requires i < |names| && f < |fields|
    ensures k < |Scope(prefix, scope, names, fields)|
    ensures Scope(prefix, scope, names, fields)[k] == Base(prefix, scope, names[i]) + fields[f]
  {
    var n := |names| - 1;
    var before := Scope(prefix, scope, names[..n], fields);
    if i < n {
      k := ScopeHas(prefix, scope, names[..n], fields, i, f);
    } else {
      k := |before| + f;
    }
  }

  lemma CollisionMeets(prefix: string, scope: string, names: seq<string>, last: string, fields: seq<string>, i: nat)
    requires |fields| > 0 && i < |names| && PathComponent(names[i]) == PathComponent(last)
    ensures !Apart(Scope(prefix, scope, names, fields), Prefixed(Base(prefix, scope, last), fields))
  {
    var k := ScopeHas(prefix, scope, names, fields, i, 0);
    hide Scope, PathComponent;
    assert Scope(prefix, scope, names, fields)[k] == Prefixed(Base(prefix, scope, last), fields)[0];
  }

  lemma OthersStayApart(prefix: string, scope: string, names: seq<string>, last: string, fields: seq<string>)
    requires forall i | 0 <= i < |names| :: PathComponent(names[i]) != PathComponent(last)
    ensures Apart(Scope(prefix, scope, names, fields), Prefixed(Base(prefix, scope, last), fields))
  {
    hide Scope, PathComponent, Base;
    var all, mine := Scope(prefix, scope, names, fields), Prefixed(Base(prefix, scope, last), fields);
    forall k, j | 0 <= k < |all| && 0 <= j < |mine| ensures all[k] != mine[j] {
      var i, f := ScopeMember(prefix, scope, names, fields, k);
      ComponentsApart(prefix, scope, names[i], last, fields);
      assert Prefixed(Base(prefix, scope, names[i]), fields)[f] == all[k];
    }
  }

  lemma LastApart(prefix: string, scope: string, names: seq<string>, last: string, fields: seq<string>)
    requires |fields| > 0
    ensures Apart(Scope(prefix, scope, names, fields), Prefixed(Base(prefix, scope, last), fields))
      <==> forall i | 0 <= i < |names| :: PathComponent(names[i]) != PathComponent(last)
  {
    hide Scope, PathComponent, Base, Apart;
    if i: nat :| i < |names| && PathComponent(names[i]) == PathComponent(last) {
      CollisionMeets(prefix, scope, names, last, fields, i);
    } else {
      OthersStayApart(prefix, scope, names, last, fields);
    }
  }

  lemma {:induction false} ScopeDiffers(prefix: string, scope: string, names: seq<string>, fields: seq<string>)
    requires |fields| > 0 && Distinct(fields)
    ensures Distinct(Scope(prefix, scope, names, fields)) <==> NoCollision(names)
  {
    if names != [] {
      var n := |names| - 1;
      ScopeDiffers(prefix, scope, names[..n], fields);
      LastApart(prefix, scope, names[..n], names[n], fields);
      PrefixedDiffer(Base(prefix, scope, names[n]), fields);
      JoinedDiffer(Scope(prefix, scope, names[..n], fields), Prefixed(Base(prefix, scope, names[n]), fields));
      LastCollision(names);
      hide Distinct, Apart, NoCollision;
    }
  }

  lemma LastCollision(names: seq<string>)
    requires names != []
    ensures var n := |names| - 1;
      NoCollision(names) <==>
        NoCollision(names[..n]) && forall i | 0 <= i < |names[..n]| ::
          PathComponent(names[..n][i]) != PathComponent(names[n])
  {
    hide PathComponent;
    var n := |names| - 1;
    assert forall i | 0 <= i < n :: names[..n][i] == names[i];
    if NoCollision(names[..n]) && forall i | 0 <= i < n :: PathComponent(names[i]) != PathComponent(names[n]) {
      forall i, j | 0 <= i < j < |names| ensures PathComponent(names[i]) != PathComponent(names[j]) {
        assert j < n ==> PathComponent(names[..n][i]) != PathComponent(names[..n][j]);
      }
    }
  }

  lemma PathLetter(prefix: string, scope: string, name: string, field: string)
    requires |scope| >= 2
    ensures var p := Base(prefix, scope, name) + field; |p| > |prefix| + 1 && p[|prefix| + 1] == scope[1]
  {
    hide PathComponent;
    assert Base(prefix, scope, name) + field == prefix + (scope + (PathComponent(name) + "." + field));
  }

  lemma ScopeLetter(prefix: string, scope: string, names: seq<string>, fields: seq<string>)
    requires |scope| >= 2
    ensures AllHave(Scope(prefix, scope, names, fields), |prefix| + 1, scope[1])
  {
    hide Scope, Base;
    var s := Scope(prefix, scope, names, fields);
    forall k | 0 <= k < |s| ensures |s[k]| > |prefix| + 1 && s[k][|prefix| + 1] == scope[1] {
      var i, f := ScopeMember(prefix, scope, names, fields, k);
      PathLetter(prefix, scope, names[i], fields[f]);
    }
  }

  // All paths are distinct exactly when no two nodes and no two channels collide.
  lemma PathsDifferIff(prefix: string, nodes: seq<string>, dongles: seq<string>)
    ensures Distinct(Paths(prefix, nodes, dongles)) <==> NoCollision(nodes) && NoCollision(dongles)
  {
    var hub := Prefixed(prefix + ".hub.main.", HUB_FIELDS);
    var ofNodes, ofDongles := Scope(prefix, ".node.", nodes, NodeFields()),
      Scope(prefix, ".channel.", dongles, DONGLE_FIELDS);
    HubPathsDiffer(prefix);
    NodeFieldsDiffer();
    DongleFieldsDiffer();
    ScopeDiffers(prefix, ".node.", nodes, NodeFields());
    ScopeDiffers(prefix, ".channel.", dongles, DONGLE_FIELDS);
    ScopeLetter(prefix, ".node.", nodes, NodeFields());
    ScopeLetter(prefix, ".channel.", dongles, DONGLE_FIELDS);
    hide NodeFields, Scope, NoCollision, Distinct, HUB_FIELDS, DONGLE_FIELDS, AllHave, Apart, Prefixed;
    DifferAt(ofNodes, ofDongles, |prefix| + 1, 'n', 'c');
    JoinedDiffer(ofNodes, ofDongles);
    ApartFromBoth(hub, ofNodes, ofDongles, |prefix| + 1);
    JoinedDiffer(hub, ofNodes + ofDongles);
  }

  lemma LetterAfterPrefix(prefix: string, rest: string, fields: seq<string>)
    requires |rest| >= 2
    ensures AllHave(Prefixed(prefix + rest, fields), |prefix| + 1, rest[1])
  {
    forall i | 0 <= i < |fields|
      ensures |prefix + rest + fields[i]| > |prefix| + 1 && (prefix + rest + fields[i])[|prefix| + 1] == rest[1]
    {
      assert prefix + rest + fields[i] == prefix + (rest + fields[i]);
    }
  }

  lemma HubPathsDiffer(prefix: string)
    ensures var hub := Prefixed(prefix + ".hub.main.", HUB_FIELDS);
      Distinct(hub) && |hub| == 19 && AllHave(hub, |prefix| + 1, 'h')
  {
    HubFieldsDiffer();
    hide HUB_FIELDS;
    PrefixedDiffer(prefix + ".hub.main.", HUB_FIELDS);
    LetterAfterPrefix(prefix, ".hub.main.", HUB_FIELDS);
  }

  lemma ApartFromBoth(a: seq<string>, b: seq<string>, c: seq<string>, at: nat)
    requires AllHave(a, at, 'h') && AllHave(b, at, 'n') && AllHave(c, at, 'c')
    ensures Apart(a, b + c)
  {
    DifferAt(a, b, at, 'h', 'n');
    DifferAt(a, c, at, 'h', 'c');
  }

  // So a catalog that has passed the check has 19 + 33 per node + 18 per channel paths.
  lemma CatalogSize(prefix: string, nodes: seq<string>, dongles: seq<string>)
    requires NoCollision(nodes) && NoCollision(dongles)
    ensures |SetOf(Paths(prefix, nodes, dongles))| == 19 + 33 * |nodes| + 18 * |dongles|
  {
    PathsDifferIff(prefix, nodes, dongles);
    SizeOfDistinct(Paths(prefix, nodes, dongles));
    HubPathsDiffer(prefix);
    NodeFieldsDiffer();
    DongleFieldsDiffer();
    hide HUB_FIELDS, DONGLE_FIELDS, NodeFields, Distinct, SetOf;
  }

  lemma SentPlusCoalescedOfSize(run: Run, cohorts: nat, keys: set<Path>, size: nat)
    requires |keys| == size && cohorts > 0 && run.Valid(cohorts) && run.FixedCatalog(keys)
    ensures var s := run.Last(cohorts); s.valuesSent + s.valuesCoalesced == size * s.batchSuccess
  {
    SentPlusCoalesced(run, cohorts, keys);
    hide *;
  }

  // What a publisher over this catalog has sent and coalesced, whatever failed.
  lemma CatalogAccounting(run: Run, cohorts: nat, prefix: string, nodes: seq<string>, dongles: seq<string>)
    requires NoCollision(nodes) && NoCollision(dongles)
    requires cohorts > 0 && run.Valid(cohorts) && run.FixedCatalog(SetOf(Paths(prefix, nodes, dongles)))
    ensures var s := run.Last(cohorts);
      s.valuesSent + s.valuesCoalesced == (19 + 33 * |nodes| + 18 * |dongles|) * s.batchSuccess
  {
    hide *;
    CatalogSize(prefix, nodes, dongles);
    SentPlusCoalescedOfSize(run, cohorts, SetOf(Paths(prefix, nodes, dongles)), 19 + 33 * |nodes| + 18 * |dongles|);
  }

  // ---------- the check of Serve ----------

  function Key(prefix: string, scope: string, name: string): string {
    prefix + scope + PathComponent(name)
  }

  lemma KeysAgreeIff(prefix: string, scope: string, x: string, y: string)
    ensures Key(prefix, scope, x) == Key(prefix, scope, y) <==> PathComponent(x) == PathComponent(y)
  {
    assert Key(prefix, scope, x)[|prefix + scope|..] == PathComponent(x);
    assert Key(prefix, scope, y)[|prefix + scope|..] == PathComponent(y);
  }

  lemma ScopesDiffer(prefix: string, x: string, y: string)
    ensures Key(prefix, ".node.", x) != Key(prefix, ".channel.", y)
  {
    assert Key(prefix, ".node.", x) == prefix + (".node." + PathComponent(x));
    assert Key(prefix, ".channel.", y) == prefix + (".channel." + PathComponent(y));
    assert Key(prefix, ".node.", x)[|prefix| + 1] == 'n';
    assert Key(prefix, ".channel.", y)[|prefix| + 1] == 'c';
  }

  function KeysOf(prefix: string, scope: string, names: seq<string>): set<string> {
    if names == [] then {}
    else KeysOf(prefix, scope, names[..|names| - 1]) + {Key(prefix, scope, names[|names| - 1])}
  }

  predicate Meets(names: seq<string>, x: string) {
    exists i | 0 <= i < |names| :: PathComponent(names[i]) == PathComponent(x)
  }

  lemma MeetsGrows(names: seq<string>, x: string)
    requires names != []
    ensures Meets(names, x) <==> Meets(names[..|names| - 1], x) || PathComponent(names[|names| - 1]) == PathComponent(x)
  {
    hide PathComponent;
    var n := |names| - 1;
    if i :| 0 <= i < n && PathComponent(names[i]) == PathComponent(x) {
      assert names[..n][i] == names[i];
    }
  }

  lemma {:induction false} InKeysIff(prefix: string, scope: string, names: seq<string>, x: string)
    ensures Key(prefix, scope, x) in KeysOf(prefix, scope, names) <==> Meets(names, x)
  {
    if names != [] {
      MeetsGrows(names, x);
      KeysAgreeIff(prefix, scope, x, names[|names| - 1]);
      hide Key, PathComponent, Meets;
      InKeysIff(prefix, scope, names[..|names| - 1], x);
    }
  }

  lemma CollisionGrows(names: seq<string>, n: nat)
    requires n < |names| && NoCollision(names[..n])
    ensures NoCollision(names[..n + 1]) <==> !Meets(names[..n], names[n])
  {
    assert names[..n + 1][..n] == names[..n];
    LastCollision(names[..n + 1]);
    hide PathComponent, NoCollision;
  }

  lemma KeysGrow(prefix: string, scope: string, names: seq<string>, n: nat)
    requires n < |names|
    ensures KeysOf(prefix, scope, names[..n + 1]) == KeysOf(prefix, scope, names[..n]) + {Key(prefix, scope, names[n])}
  {
    assert names[..n + 1][..n] == names[..n];
    hide Key;
  }

  lemma {:induction false} ScopesShareNothing(prefix: string, nodes: seq<string>, x: string)
    ensures Key(prefix, ".channel.", x) !in KeysOf(prefix, ".node.", nodes)
  {
    if nodes != [] {
      ScopesShareNothing(prefix, nodes[..|nodes| - 1], x);
      ScopesDiffer(prefix, nodes[|nodes| - 1], x);
      hide Key;
    }
  }

  // The loop over the names of one scope; claimed are the paths of the scope before it.
  method CheckScope(prefix: string, scope: string, names: seq<string>, claimed: set<string>)
    returns (ok: bool, seen: set<string>)
    requires forall i | 0 <= i < |names| :: Key(prefix, scope, names[i]) !in claimed
    ensures ok <==> NoCollision(names)
    ensures ok ==> seen == claimed + KeysOf(prefix, scope, names)
  {
    seen := claimed;
    for n := 0 to |names|
      invariant NoCollision(names[..n])
      invariant seen == claimed + KeysOf(prefix, scope, names[..n])
    {
      hide Key, PathComponent, NoCollision, Meets, KeysOf;
      InKeysIff(prefix, scope, names[..n], names[n]);
      CollisionGrows(names, n);
      KeysGrow(prefix, scope, names, n);
      var path := Key(prefix, scope, names[n]);
      if path in seen {
        SomeCollision(names, n);
        return false, seen;
      }
      seen := seen + {path};
    }
    assert names[..|names|] == names;
    ok := true;
  }

  lemma SomeCollision(names: seq<string>, n: nat)
    requires n < |names| && !NoCollision(names[..n + 1])
    ensures !NoCollision(names)
  {
    hide PathComponent;
    var i, j :| 0 <= i < j < |names[..n + 1]| && PathComponent(names[..n + 1][i]) == PathComponent(names[..n + 1][j]);
    assert PathComponent(names[i]) == PathComponent(names[j]);
  }

  // Serve starts publishing exactly when all paths will be distinct.
  method CheckNames(prefix: string, nodes: seq<string>, dongles: seq<string>) returns (ok: bool)
    ensures ok <==> Distinct(Paths(prefix, nodes, dongles))
  {
    PathsDifferIff(prefix, nodes, dongles);
    hide Paths, Key, NoCollision, Distinct;
    var seen;
    ok, seen := CheckScope(prefix, ".node.", nodes, {});
    if ok {
      forall j | 0 <= j < |dongles| ensures Key(prefix, ".channel.", dongles[j]) !in seen {
        ScopesShareNothing(prefix, nodes, dongles[j]);
      }
      ok, seen := CheckScope(prefix, ".channel.", dongles, seen);
    }
  }

  // ---------- the snapshot ----------

  function Zip(paths: seq<string>, row: seq<int>): map<string, int>
    requires |paths| == |row|
  {
    if paths == [] then map[]
    else Zip(paths[..|paths| - 1], row[..|row| - 1])[paths[|paths| - 1] := row[|row| - 1]]
  }

  lemma {:induction false} ZipKeys(paths: seq<string>, row: seq<int>)
    requires |paths| == |row|
    ensures Zip(paths, row).Keys == SetOf(paths)
  {
    if paths != [] {
      var n := |paths| - 1;
      ZipKeys(paths[..n], row[..n]);
      assert paths == paths[..n] + [paths[n]];
    }
  }

  lemma {:induction false} ZipAt(paths: seq<string>, row: seq<int>, k: nat)
    requires |paths| == |row| && Distinct(paths) && k < |paths|
    ensures paths[k] in Zip(paths, row) && Zip(paths, row)[paths[k]] == row[k]
  {
    var n := |paths| - 1;
    if k < n {
      ZipAt(paths[..n], row[..n], k);
    }
  }

  lemma ZipGrows(paths: seq<string>, row: seq<int>, path: string, value: int)
    requires |paths| == |row|
    ensures Zip(paths + [path], row + [value]) == Zip(paths, row)[path := value]
  {
    assert (paths + [path])[..|paths|] == paths && (row + [value])[..|row|] == row;
    hide SetOf;
  }

  lemma PutLast(m: map<string, int>, n: map<string, int>, path: string, value: int)
    ensures (m + n)[path := value] == m + n[path := value]
  {
  }

  lemma ZipJoinsOneMore(a: seq<string>, r: seq<int>, b: seq<string>, s: seq<int>, path: string, value: int)
    requires |a| == |r| && |b| == |s| && Zip(a + b, r + s) == Zip(a, r) + Zip(b, s)
    ensures Zip(a + (b + [path]), r + (s + [value])) == Zip(a, r) + Zip(b + [path], s + [value])
  {
    assert a + (b + [path]) == (a + b) + [path];
    assert r + (s + [value]) == (r + s) + [value];
    ZipGrows(b, s, path, value);
    ZipGrows(a + b, r + s, path, value);
    PutLast(Zip(a, r), Zip(b, s), path, value);
    hide Zip, SetOf;
  }

  lemma {:induction false} ZipJoins(a: seq<string>, r: seq<int>, b: seq<string>, s: seq<int>)
    requires |a| == |r| && |b| == |s|
    ensures Zip(a + b, r + s) == Zip(a, r) + Zip(b, s)
  {
    if b == [] {
      assert a + b == a && r + s == r;
    } else {
      var n := |b| - 1;
      hide Zip, SetOf;
      ZipJoins(a, r, b[..n], s[..n]);
      ZipJoinsOneMore(a, r, b[..n], s[..n], b[n], s[n]);
      assert b == b[..n] + [b[n]] && s == s[..n] + [s[n]];
    }
  }

  function Flat(rows: seq<seq<int>>): seq<int> {
    if rows == [] then [] else Flat(rows[..|rows| - 1]) + rows[|rows| - 1]
  }

  // addNodeValues, addDongleValues and their like: one base, one row.
  method AddValues(values: map<string, int>, base: string, fields: seq<string>, row: seq<int>)
    returns (r: map<string, int>)
    requires |fields| == |row|
    ensures r == values + Zip(Prefixed(base, fields), row)
  {
    r := values;
    ghost var paths := Prefixed(base, fields);
    for k := 0 to |fields|
      invariant r == values + Zip(paths[..k], row[..k])
    {
      ZipGrows(paths[..k], row[..k], paths[k], row[k]);
      assert paths[..k + 1] == paths[..k] + [paths[k]] && row[..k + 1] == row[..k] + [row[k]];
      hide Zip, SetOf, Prefixed;
      PutLast(values, Zip(paths[..k], row[..k]), paths[k], row[k]);
      r := r[base + fields[k] := row[k]];
    }
    assert paths[..|fields|] == paths && row[..|fields|] == row;
  }

  lemma ScopeGrows(prefix: string, scope: string, names: seq<string>, fields: seq<string>, n: nat)
    requires n < |names|
    ensures Scope(prefix, scope, names[..n + 1], fields)
         == Scope(prefix, scope, names[..n], fields) + Prefixed(Base(prefix, scope, names[n]), fields)
  {
    assert names[..n + 1][..n] == names[..n];
  }

  lemma FlatGrows(rows: seq<seq<int>>, n: nat)
    requires n < |rows|
    ensures Flat(rows[..n + 1]) == Flat(rows[..n]) + rows[n]
  {
    assert rows[..n + 1][..n] == rows[..n];
  }

  lemma AddedInTurn(m: map<string, int>, a: map<string, int>, b: map<string, int>)
    ensures m + a + b == m + (a + b)
  {
  }

  method AddScope(values: map<string, int>, prefix: string, scope: string, names: seq<string>, fields: seq<string>,
                  rows: seq<seq<int>>)
    returns (r: map<string, int>)
    requires |names| == |rows| && forall i | 0 <= i < |rows| :: |rows[i]| == |fields|
    ensures |Flat(rows)| == |Scope(prefix, scope, names, fields)|
    ensures r == values + Zip(Scope(prefix, scope, names, fields), Flat(rows))
  {
    r := values;
    for n := 0 to |names|
      invariant |Flat(rows[..n])| == |Scope(prefix, scope, names[..n], fields)|
      invariant r == values + Zip(Scope(prefix, scope, names[..n], fields), Flat(rows[..n]))
    {
      ScopeGrows(prefix, scope, names, fields, n);
      FlatGrows(rows, n);
      hide Zip, Scope, Flat, SetOf, Base, Prefixed;
      var base := Base(prefix, scope, names[n]);
      ghost var before, more := Scope(prefix, scope, names[..n], fields), Prefixed(base, fields);
      ZipJoins(before, Flat(rows[..n]), more, rows[n]);
      AddedInTurn(values, Zip(before, Flat(rows[..n])), Zip(more, rows[n]));
      r := AddValues(r, base, fields, rows[n]);
    }
    assert names[..|names|] == names && rows[..|names|] == rows;
  }

  lemma FromNothingInTurn(all: map<string, int>, a: map<string, int>, rest: map<string, int>, b: map<string, int>,
                          c: map<string, int>)
    requires all == a + rest && rest == b + c
    ensures all == map[] + a + b + c
  {
    assert map[] + a == a;
    AddedInTurn(a, b, c);
  }

  lemma ThreeZips(a: seq<string>, r: seq<int>, b: seq<string>, s: seq<int>, c: seq<string>, t: seq<int>,
                  all: map<string, int>)
    requires |a| == |r| && |b| == |s| && |c| == |t|
    requires all == Zip(a + (b + c), r + (s + t))
    ensures all == map[] + Zip(a, r) + Zip(b, s) + Zip(c, t)
  {
    hide Zip, SetOf;
    ZipJoins(b, s, c, t);
    ZipJoins(a, r, b + c, s + t);
    FromNothingInTurn(all, Zip(a, r), Zip(b + c, s + t), Zip(b, s), Zip(c, t));
  }

  method SnapshotRow(prefix: string, nodes: seq<string>, dongles: seq<string>,
                  hub: seq<int>, ofNodes: seq<seq<int>>, ofDongles: seq<seq<int>>)
    returns (values: map<string, int>)
    requires |hub| == 19 && |ofNodes| == |nodes| && |ofDongles| == |dongles|
    requires forall i | 0 <= i < |ofNodes| :: |ofNodes[i]| == 33
    requires forall i | 0 <= i < |ofDongles| :: |ofDongles[i]| == 18
    ensures values.Keys == SetOf(Paths(prefix, nodes, dongles))
    ensures var row := hub + (Flat(ofNodes) + Flat(ofDongles));
      |row| == |Paths(prefix, nodes, dongles)| && values == Zip(Paths(prefix, nodes, dongles), row)
  {
    HubFieldsDiffer();
    NodeFieldsDiffer();
    DongleFieldsDiffer();
    hide HUB_FIELDS, NodeFields, DONGLE_FIELDS, Distinct, Zip, Scope, Flat, Prefixed, SetOf;
    values := AddValues(map[], prefix + ".hub.main.", HUB_FIELDS, hub);
    values := AddScope(values, prefix, ".node.", nodes, NodeFields(), ofNodes);
    values := AddScope(values, prefix, ".channel.", dongles, DONGLE_FIELDS, ofDongles);
    var n, d := Scope(prefix, ".node.", nodes, NodeFields()), Scope(prefix, ".channel.", dongles, DONGLE_FIELDS);
    var main := Prefixed(prefix + ".hub.main.", HUB_FIELDS);
    ThreeZips(main, hub, n, Flat(ofNodes), d, Flat(ofDongles),
              Zip(Paths(prefix, nodes, dongles), hub + (Flat(ofNodes) + Flat(ofDongles))));
    ZipKeys(Paths(prefix, nodes, dongles), hub + (Flat(ofNodes) + Flat(ofDongles)));
  }

  // Where a field of a name is among the paths of its scope, and its value among the rows.
  lemma {:induction false} PlaceInScope(prefix: string, scope: string, names: seq<string>, fields: seq<string>,
                                        rows: seq<seq<int>>, i: nat, f: nat) returns (k: nat)
    requires |names| == |rows| && (forall n | 0 <= n < |rows| :: |rows[n]| == |fields|)
    requires i < |names| && f < |fields|
    ensures |Flat(rows)| == |Scope(prefix, scope, names, fields)| && k < |Flat(rows)|
    ensures Scope(prefix, scope, names, fields)[k] == prefix + scope + PathComponent(names[i]) + "." + fields[f]
    ensures Flat(rows)[k] == rows[i][f]
  {
    hide PathComponent;
    var n := |names| - 1;
    FlatFits(prefix, scope, names[..n], fields, rows[..n]);
    if i < n {
      k := PlaceInScope(prefix, scope, names[..n], fields, rows[..n], i, f);
    } else {
      k := |Flat(rows[..n])| + f;
    }
  }

  lemma {:induction false} FlatFits(prefix: string, scope: string, names: seq<string>, fields: seq<string>,
                                    rows: seq<seq<int>>)
    requires |names| == |rows| && (forall n | 0 <= n < |rows| :: |rows[n]| == |fields|)
    ensures |Flat(rows)| == |Scope(prefix, scope, names, fields)|
  {
    if names != [] {
      FlatFits(prefix, scope, names[..|names| - 1], fields, rows[..|names| - 1]);
      hide Base;
    }
  }

  // The part of a whole list of paths, with its part of the values.
  lemma ZipPart(paths: seq<string>, row: seq<int>, before: seq<string>, part: seq<string>, after: seq<string>,
                earlier: seq<int>, mine: seq<int>, later: seq<int>, k: nat)
    requires paths == before + (part + after) && row == earlier + (mine + later)
    requires |before| == |earlier| && |part| == |mine| && |after| == |later| && Distinct(paths) && k < |part|
    ensures |paths| == |row| && part[k] in Zip(paths, row) && Zip(paths, row)[part[k]] == mine[k]
  {
    ZipAt(paths, row, |before| + k);
    hide Zip, Distinct;
  }

  // Each field of the hub, of a node and of a channel shows the value of its own row under
  // its own path.
  ghost predicate ShowsItsOwn(prefix: string, nodes: seq<string>, dongles: seq<string>, hub: seq<int>,
                              ofNodes: seq<seq<int>>, ofDongles: seq<seq<int>>, values: map<string, int>)
  {
    && |HUB_FIELDS| == |hub| && |ofNodes| == |nodes| && |ofDongles| == |dongles|
    && (forall f | 0 <= f < |hub| ::
          prefix + ".hub.main." + HUB_FIELDS[f] in values && values[prefix + ".hub.main." + HUB_FIELDS[f]] == hub[f])
    && (forall i, f | 0 <= i < |nodes| && 0 <= f < |NodeFields()| && f < |ofNodes[i]| ::
          var path := prefix + ".node." + PathComponent(nodes[i]) + "." + NodeFields()[f];
          path in values && values[path] == ofNodes[i][f])
    && (forall i, f | 0 <= i < |dongles| && 0 <= f < |DONGLE_FIELDS| && f < |ofDongles[i]| ::
          var path := prefix + ".channel." + PathComponent(dongles[i]) + "." + DONGLE_FIELDS[f];
          path in values && values[path] == ofDongles[i][f])
  }

  // Once the check of Serve has passed, a snapshot does.
  lemma EachShowsItsOwn(prefix: string, nodes: seq<string>, dongles: seq<string>, hub: seq<int>,
                        ofNodes: seq<seq<int>>, ofDongles: seq<seq<int>>, values: map<string, int>)
    requires |hub| == 19 && |ofNodes| == |nodes| && |ofDongles| == |dongles|
    requires forall i | 0 <= i < |ofNodes| :: |ofNodes[i]| == 33
    requires forall i | 0 <= i < |ofDongles| :: |ofDongles[i]| == 18
    requires NoCollision(nodes) && NoCollision(dongles)
    requires var row := hub + (Flat(ofNodes) + Flat(ofDongles));
      |row| == |Paths(prefix, nodes, dongles)| && values == Zip(Paths(prefix, nodes, dongles), row)
    ensures ShowsItsOwn(prefix, nodes, dongles, hub, ofNodes, ofDongles, values)
  {
    HubFieldsDiffer();
    NodeFieldsDiffer();
    DongleFieldsDiffer();
    PathsDifferIff(prefix, nodes, dongles);
    hide HUB_FIELDS, NodeFields, DONGLE_FIELDS, Distinct, Zip, Scope, Flat, Prefixed, SetOf, PathComponent, NoCollision;
    var main := Prefixed(prefix + ".hub.main.", HUB_FIELDS);
    var n, d := Scope(prefix, ".node.", nodes, NodeFields()), Scope(prefix, ".channel.", dongles, DONGLE_FIELDS);
    var paths, row := Paths(prefix, nodes, dongles), hub + (Flat(ofNodes) + Flat(ofDongles));
    FlatFits(prefix, ".node.", nodes, NodeFields(), ofNodes);
    FlatFits(prefix, ".channel.", dongles, DONGLE_FIELDS, ofDongles);
    forall f: nat | f < 19 ensures main[f] in values && values[main[f]] == hub[f] {
      assert paths == [] + (main + (n + d)) && row == [] + (hub + (Flat(ofNodes) + Flat(ofDongles)));
      ZipPart(paths, row, [], main, n + d, [], hub, Flat(ofNodes) + Flat(ofDongles), f);
    }
    forall i: nat, f: nat | i < |nodes| && f < 33
      ensures var path := prefix + ".node." + PathComponent(nodes[i]) + "." + NodeFields()[f];
        path in values && values[path] == ofNodes[i][f]
    {
      var k := PlaceInScope(prefix, ".node.", nodes, NodeFields(), ofNodes, i, f);
      ZipPart(paths, row, main, n, d, hub, Flat(ofNodes), Flat(ofDongles), k);
    }
    forall i: nat, f: nat | i < |dongles| && f < 18
      ensures var path := prefix + ".channel." + PathComponent(dongles[i]) + "." + DONGLE_FIELDS[f];
        path in values && values[path] == ofDongles[i][f]
    {
      var k := PlaceInScope(prefix, ".channel.", dongles, DONGLE_FIELDS, ofDongles, i, f);
      assert paths == (main + n) + (d + []) && row == (hub + Flat(ofNodes)) + (Flat(ofDongles) + []);
      ZipPart(paths, row, main + n, d, [], hub + Flat(ofNodes), Flat(ofDongles), [], k);
    }
  }

  // The snapshot has exactly the catalog's paths and, once the check of Serve has passed,
  // at each of them the value of its own field.
  method Snapshot(prefix: string, nodes: seq<string>, dongles: seq<string>,
                  hub: seq<int>, ofNodes: seq<seq<int>>, ofDongles: seq<seq<int>>)
    returns (values: map<string, int>)
    requires |hub| == 19 && |ofNodes| == |nodes| && |ofDongles| == |dongles|
    requires forall i | 0 <= i < |ofNodes| :: |ofNodes[i]| == 33
    requires forall i | 0 <= i < |ofDongles| :: |ofDongles[i]| == 18
    ensures values.Keys == SetOf(Paths(prefix, nodes, dongles))
    ensures NoCollision(nodes) && NoCollision(dongles) ==>
      ShowsItsOwn(prefix, nodes, dongles, hub, ofNodes, ofDongles, values)
  {
    values := SnapshotRow(prefix, nodes, dongles, hub, ofNodes, ofDongles);
    hide Zip, Flat, SetOf, NoCollision, Paths, ShowsItsOwn;
    if NoCollision(nodes) && NoCollision(dongles) {
      EachShowsItsOwn(prefix, nodes, dongles, hub, ofNodes, ofDongles, values);
    }
  }

  // A path of the snapshot never shows the value of another field, node or channel.
  lemma EachPathHasItsOwnValue(prefix: string, nodes: seq<string>, dongles: seq<string>, row: seq<int>, k: nat)
    requires NoCollision(nodes) && NoCollision(dongles)
    requires |row| == |Paths(prefix, nodes, dongles)| && k < |row|
    ensures var path := Paths(prefix, nodes, dongles)[k]; var values := Zip(Paths(prefix, nodes, dongles), row);
      path in values && values[path] == row[k]
  {
    PathsDifferIff(prefix, nodes, dongles);
    ZipAt(Paths(prefix, nodes, dongles), row, k);
    hide Paths, Zip;
  }
}
