/** The deployment of lib/shared/inventory/inventory.go: what Validate accepts, exactly. */
module Inventory {
  import opened Names
  import opened Options

  type Tag = n: nat | n < 0x1_0000

  datatype RegType = IntType | FloatType | BoolType | OtherType

  // A conversion function: one of the device type's own, or a default of its type.
  datatype Func = Custom(id: nat) | DefaultDecode(typ: RegType) | DefaultEncode(name: string, typ: RegType)

  datatype Conversion = Conversion(decode: Option<Func>, encode: Option<Func>) {
    // A read-only register has nothing to encode; any other one has both or neither.
    predicate Fits(readOnly: bool) {
      if readOnly then encode.None? else decode.None? == encode.None?
    }
  }

  datatype Register = Register(tag: Tag, name: string, typ: RegType, readOnly: bool, conversion: Conversion)

  // firmwareFits stands for Firmware.IsZero() or Firmware.Validate() without an error.
  datatype DeviceType = DeviceType(name: string, registers: seq<Register>, firmwareFits: bool)

  const SPREAD_FACTOR_S8: nat := 0
  const SPREAD_FACTOR_S2: nat := 1

  datatype Channel = Channel(name: string, number: nat, spreadFactor: nat)

  datatype Instance = Instance(name: string, address: nat, onlineTimeout: int, channel: Channel, typ: DeviceType,
                               registryNames: map<Tag, string>)
  {
    function RegistryName(register: Register): string {
      if register.tag in registryNames then registryNames[register.tag] else name + "." + register.name
    }
  }

  // ---------- the rules ----------

  ghost predicate TypeRules(dt: DeviceType) {
    && dt.name != "" && dt.firmwareFits
    && (forall i | 0 <= i < |dt.registers| ::
          && dt.registers[i].tag != 0 && dt.registers[i].name != ""
          && dt.registers[i].conversion.Fits(dt.registers[i].readOnly))
    && (forall i, j | 0 <= i < j < |dt.registers| ::
          dt.registers[i].tag != dt.registers[j].tag && dt.registers[i].name != dt.registers[j].name)
  }

  ghost predicate MappingRules(inst: Instance) {
    forall tag | tag in inst.registryNames ::
      inst.registryNames[tag] != "" && exists i | 0 <= i < |inst.typ.registers| :: inst.typ.registers[i].tag == tag
  }

  function ResolvedNames(inst: Instance): (r: seq<string>)
    ensures |r| == |inst.typ.registers|
    ensures forall i | 0 <= i < |r| :: r[i] == inst.RegistryName(inst.typ.registers[i])
  {
    seq(|inst.typ.registers|, i requires 0 <= i < |inst.typ.registers| => inst.RegistryName(inst.typ.registers[i]))
  }

  function AllNames(inv: seq<Instance>): seq<string> {
    if inv == [] then [] else AllNames(inv[..|inv| - 1]) + ResolvedNames(inv[|inv| - 1])
  }

  ghost predicate InstanceRules(inst: Instance) {
    && inst.name != "" && inst.onlineTimeout >= 0 && inst.address != 0
    && TypeRules(inst.typ) && MappingRules(inst)
  }

  predicate ChannelFits(ch: Channel) {
    && ch.number <= 83 && ch.name != ""
    && (ch.spreadFactor == SPREAD_FACTOR_S8 || ch.spreadFactor == SPREAD_FACTOR_S2)
  }

  ghost predicate OneToOne(inv: seq<Instance>) {
    forall i, j | 0 <= i < |inv| && 0 <= j < |inv| ::
      inv[i].channel.number == inv[j].channel.number <==> inv[i].channel.name == inv[j].channel.name
  }

  ghost predicate UniformFactors(inv: seq<Instance>) {
    forall i, j | 0 <= i < |inv| && 0 <= j < |inv| && inv[i].channel.number == inv[j].channel.number ::
      inv[i].channel.spreadFactor == inv[j].channel.spreadFactor
  }

  ghost predicate Rules(inv: seq<Instance>) {
    && (forall i | 0 <= i < |inv| :: InstanceRules(inv[i]) && ChannelFits(inv[i].channel))
    && (forall i, j | 0 <= i < j < |inv| :: inv[i].name != inv[j].name && inv[i].address != inv[j].address)
    && Distinct(AllNames(inv))
    && OneToOne(inv)
    && UniformFactors(inv)
  }

  // Where the names of an instance are among all names.
  function Offset(inv: seq<Instance>, i: nat): nat
    requires i <= |inv|
  {
    if i == 0 then 0 else Offset(inv, i - 1) + |inv[i - 1].typ.registers|
  }

  lemma {:induction false} OffsetsGrow(inv: seq<Instance>, i: nat, j: nat)
    requires i < j <= |inv|
    ensures Offset(inv, i) + |inv[i].typ.registers| <= Offset(inv, j)
  {
    if i + 1 < j {
      OffsetsGrow(inv, i, j - 1);
    }
  }

  lemma {:induction false} OffsetStays(inv: seq<Instance>, i: nat, n: nat)
    requires i <= n <= |inv|
    ensures Offset(inv[..n], i) == Offset(inv, i)
  {
    if i > 0 {
      OffsetStays(inv, i - 1, n);
    }
  }

  lemma {:induction false} NameAt(inv: seq<Instance>, i: nat, k: nat)
    requires i < |inv| && k < |inv[i].typ.registers|
    ensures Offset(inv, i) + k < |AllNames(inv)|
    ensures AllNames(inv)[Offset(inv, i) + k] == inv[i].RegistryName(inv[i].typ.registers[k])
  {
    hide Offset;
    var n := |inv| - 1;
    OffsetStays(inv, i, n);
    if i < n {
      NameAt(inv[..n], i, k);
    } else {
      AllNamesLength(inv[..n]);
    }
  }

  lemma {:induction false} AllNamesLength(inv: seq<Instance>)
    ensures |AllNames(inv)| == Offset(inv, |inv|)
  {
    if inv != [] {
      AllNamesLength(inv[..|inv| - 1]);
      OffsetStays(inv, |inv| - 1, |inv| - 1);
    }
  }

  lemma {:induction false} NameFrom(inv: seq<Instance>, n: nat) returns (i: nat, k: nat)
    requires n < |AllNames(inv)|
    ensures i < |inv| && k < |inv[i].typ.registers| && Offset(inv, i) + k == n
  {
    var last := |inv| - 1;
    AllNamesLength(inv[..last]);
    OffsetStays(inv, last, last);
    if n < |AllNames(inv[..last])| {
      i, k := NameFrom(inv[..last], n);
      OffsetStays(inv, i, last);
    } else {
      i, k := last, n - |AllNames(inv[..last])|;
    }
  }

  // Under its mapped name, or else under the instance's and its own.
  ghost predicate DifferentNames(inv: seq<Instance>) {
    forall i, k, j, m |
      0 <= i < |inv| && 0 <= k < |inv[i].typ.registers| && 0 <= j < |inv| && 0 <= m < |inv[j].typ.registers|
      && (i != j || k != m) ::
      NameOf(inv[i], inv[i].typ.registers[k]) != NameOf(inv[j], inv[j].typ.registers[m])
  }

  function NameOf(inst: Instance, r: Register): string {
    if r.tag in inst.registryNames then inst.registryNames[r.tag] else inst.name + "." + r.name
  }

  lemma DifferentPositions(inv: seq<Instance>, i: nat, k: nat, j: nat, m: nat)
    requires i < |inv| && k < |inv[i].typ.registers| && j < |inv| && m < |inv[j].typ.registers|
    requires i != j || k != m
    ensures Offset(inv, i) + k != Offset(inv, j) + m
  {
    if i < j {
      OffsetsGrow(inv, i, j);
    } else if j < i {
      OffsetsGrow(inv, j, i);
    }
  }

  lemma NamesDifferIff(inv: seq<Instance>)
    ensures Distinct(AllNames(inv)) <==> DifferentNames(inv)
  {
    hide AllNames, Offset;
    if Distinct(AllNames(inv)) {
      forall i, k, j, m |
        0 <= i < |inv| && 0 <= k < |inv[i].typ.registers| && 0 <= j < |inv| && 0 <= m < |inv[j].typ.registers|
        && (i != j || k != m)
        ensures NameOf(inv[i], inv[i].typ.registers[k]) != NameOf(inv[j], inv[j].typ.registers[m])
      {
        NameAt(inv, i, k);
        NameAt(inv, j, m);
        DifferentPositions(inv, i, k, j, m);
      }
    } else {
      var a, b :| 0 <= a < b < |AllNames(inv)| && AllNames(inv)[a] == AllNames(inv)[b];
      var i, k := NameFrom(inv, a);
      var j, m := NameFrom(inv, b);
      NameAt(inv, i, k);
      NameAt(inv, j, m);
    }
  }

  // The rules in full: no instance, register or channel is without what it needs, and
  // nothing that has to be unique is there twice.
  lemma RulesAre(inv: seq<Instance>)
    ensures Rules(inv) <==>
      && (forall i | 0 <= i < |inv| ::
            && inv[i].name != "" && inv[i].address != 0 && inv[i].onlineTimeout >= 0
            && inv[i].typ.name != "" && inv[i].typ.firmwareFits
            && inv[i].channel.name != "" && inv[i].channel.number <= 83
            && (inv[i].channel.spreadFactor == 0 || inv[i].channel.spreadFactor == 1))
      && (forall i, k | 0 <= i < |inv| && 0 <= k < |inv[i].typ.registers| ::
            var r := inv[i].typ.registers[k];
            && r.tag != 0 && r.name != ""
            && (if r.readOnly then r.conversion.encode.None?
                else r.conversion.decode.Some? <==> r.conversion.encode.Some?))
      && (forall i, j, k | 0 <= i < |inv| && 0 <= j < k < |inv[i].typ.registers| ::
            && inv[i].typ.registers[j].tag != inv[i].typ.registers[k].tag
            && inv[i].typ.registers[j].name != inv[i].typ.registers[k].name)
      && (forall i, tag | 0 <= i < |inv| && tag in inv[i].registryNames ::
            inv[i].registryNames[tag] != "" && exists k | 0 <= k < |inv[i].typ.registers| ::
              inv[i].typ.registers[k].tag == tag)
      && (forall i, j | 0 <= i < j < |inv| :: inv[i].name != inv[j].name && inv[i].address != inv[j].address)
      && (forall i, j | 0 <= i < |inv| && 0 <= j < |inv| ::
            && (inv[i].channel.number == inv[j].channel.number <==> inv[i].channel.name == inv[j].channel.name)
            && (inv[i].channel.number == inv[j].channel.number ==>
                  inv[i].channel.spreadFactor == inv[j].channel.spreadFactor))
      && DifferentNames(inv)
  {
    NamesDifferIff(inv);
    hide Distinct, AllNames, DifferentNames;
  }

  // ---------- the checks ----------

  method ValidateType(dt: DeviceType) returns (ok: bool)
    ensures ok <==> TypeRules(dt)
  {
    if dt.name == "" || !dt.firmwareFits {
      return false;
    }
    var seenTag: set<Tag>, seenName: set<string> := {}, {};
    for n := 0 to |dt.registers|
      invariant forall t :: t in seenTag <==> exists i | 0 <= i < n :: dt.registers[i].tag == t
      invariant forall s :: s in seenName <==> exists i | 0 <= i < n :: dt.registers[i].name == s
      invariant forall i | 0 <= i < n ::
        dt.registers[i].tag != 0 && dt.registers[i].name != ""
          && dt.registers[i].conversion.Fits(dt.registers[i].readOnly)
      invariant forall i, j | 0 <= i < j < n ::
        dt.registers[i].tag != dt.registers[j].tag && dt.registers[i].name != dt.registers[j].name
    {
      var r := dt.registers[n];
      if r.tag == 0 || r.tag in seenTag || r.name == "" || r.name in seenName {
        return false;
      }
      seenTag, seenName := seenTag + {r.tag}, seenName + {r.name};
      if r.readOnly {
        if r.conversion.encode.Some? {
          return false;
        }
      } else if r.conversion.decode.None? != r.conversion.encode.None? {
        return false;
      }
    }
    ok := true;
  }

  // The loops over RegistryNames.
  method ValidateMapping(inst: Instance) returns (ok: bool)
    ensures ok <==> MappingRules(inst)
  {
    var tags: set<Tag> := {};
    for n := 0 to |inst.typ.registers|
      invariant forall t :: t in tags <==> exists i | 0 <= i < n :: inst.typ.registers[i].tag == t
    {
      tags := tags + {inst.typ.registers[n].tag};
    }
    var todo := inst.registryNames.Keys;
    while todo != {}
      invariant todo <= inst.registryNames.Keys
      invariant forall t | t in inst.registryNames && t !in todo :: t in tags && inst.registryNames[t] != ""
      decreases |todo|
    {
      var tag: Tag :| tag in todo;
      if tag !in tags || inst.registryNames[tag] == "" {
        return false;
      }
      todo := todo - {tag};
    }
    ok := true;
  }

  // What the two maps hold after the first n instances.
  ghost predicate Mapped(inv: seq<Instance>, n: nat, nameByNum: map<nat, string>, numByName: map<string, nat>)
    requires n <= |inv|
  {
    && (forall i | 0 <= i < n ::
          && inv[i].channel.number in nameByNum && nameByNum[inv[i].channel.number] == inv[i].channel.name
          && inv[i].channel.name in numByName && numByName[inv[i].channel.name] == inv[i].channel.number)
    && NumbersOccur(inv, n, nameByNum) && NamesOccur(inv, n, numByName)
  }

  // Every number, and every name, is that of some channel.
  ghost predicate NumbersOccur(inv: seq<Instance>, n: nat, nameByNum: map<nat, string>)
    requires n <= |inv|
  {
    forall num | num in nameByNum :: exists i | 0 <= i < n :: inv[i].channel.number == num
  }

  ghost predicate NamesOccur(inv: seq<Instance>, n: nat, numByName: map<string, nat>)
    requires n <= |inv|
  {
    forall name | name in numByName :: exists i | 0 <= i < n :: inv[i].channel.name == name
  }

  // The next channel contradicts the maps exactly when it contradicts an earlier one.
  predicate Contradicts(ch: Channel, nameByNum: map<nat, string>, numByName: map<string, nat>) {
    (ch.number in nameByNum && nameByNum[ch.number] != ch.name)
      || (ch.name in numByName && numByName[ch.name] != ch.number)
  }

  lemma ContradictionBreaksTheRule(inv: seq<Instance>, n: nat, nameByNum: map<nat, string>, numByName: map<string, nat>)
    requires n < |inv| && Mapped(inv, n, nameByNum, numByName) && Contradicts(inv[n].channel, nameByNum, numByName)
    ensures !OneToOne(inv)
  {
    var ch := inv[n].channel;
    if ch.number in nameByNum && nameByNum[ch.number] != ch.name {
      var i :| 0 <= i < n && inv[i].channel.number == ch.number;
    } else {
      var i :| 0 <= i < n && inv[i].channel.name == ch.name;
    }
  }

  lemma NumbersGrow(inv: seq<Instance>, n: nat, nameByNum: map<nat, string>)
    requires n < |inv| && NumbersOccur(inv, n, nameByNum)
    ensures NumbersOccur(inv, n + 1, nameByNum[inv[n].channel.number := inv[n].channel.name])
  {
    assert inv[n].channel.number == inv[n].channel.number;
  }

  lemma NamesGrow(inv: seq<Instance>, n: nat, numByName: map<string, nat>)
    requires n < |inv| && NamesOccur(inv, n, numByName)
    ensures NamesOccur(inv, n + 1, numByName[inv[n].channel.name := inv[n].channel.number])
  {
    assert inv[n].channel.name == inv[n].channel.name;
  }

  lemma MappedGrows(inv: seq<Instance>, n: nat, nameByNum: map<nat, string>, numByName: map<string, nat>)
    requires n < |inv| && Mapped(inv, n, nameByNum, numByName) && !Contradicts(inv[n].channel, nameByNum, numByName)
    ensures var ch := inv[n].channel;
      Mapped(inv, n + 1, nameByNum[ch.number := ch.name], numByName[ch.name := ch.number])
  {
    hide NumbersOccur, NamesOccur;
    NumbersGrow(inv, n, nameByNum);
    NamesGrow(inv, n, numByName);
  }

  lemma MappedIsOneToOne(inv: seq<Instance>, nameByNum: map<nat, string>, numByName: map<string, nat>)
    requires Mapped(inv, |inv|, nameByNum, numByName)
    ensures OneToOne(inv)
  {
  }

  // One turn of the loop over the channels.
  method ValidateChannel(ch: Channel, nameByNum: map<nat, string>, numByName: map<string, nat>) returns (ok: bool)
    ensures ok <==> ChannelFits(ch) && !Contradicts(ch, nameByNum, numByName)
  {
    if ch.number > 83 {
      return false;
    }
    if ch.spreadFactor != SPREAD_FACTOR_S8 && ch.spreadFactor != SPREAD_FACTOR_S2 {
      return false;
    }
    if ch.name == "" {
      return false;
    }
    if ch.number in nameByNum && nameByNum[ch.number] != ch.name {
      return false;
    }
    if ch.name in numByName && numByName[ch.name] != ch.number {
      return false;
    }
    ok := true;
  }

  method ValidateChannels(inv: seq<Instance>) returns (ok: bool)
    ensures ok <==> OneToOne(inv) && forall i | 0 <= i < |inv| :: ChannelFits(inv[i].channel)
  {
    var nameByNum: map<nat, string>, numByName: map<string, nat> := map[], map[];
    for n := 0 to |inv|
      invariant forall i | 0 <= i < n :: ChannelFits(inv[i].channel)
      invariant Mapped(inv, n, nameByNum, numByName)
    {
      hide Mapped, OneToOne, Contradicts, ChannelFits;
      var ch := inv[n].channel;
      ok := ValidateChannel(ch, nameByNum, numByName);
      if !ok {
        if Contradicts(ch, nameByNum, numByName) {
          ContradictionBreaksTheRule(inv, n, nameByNum, numByName);
        }
        return;
      }
      MappedGrows(inv, n, nameByNum, numByName);
      nameByNum := nameByNum[ch.number := ch.name];
      numByName := numByName[ch.name := ch.number];
    }
    MappedIsOneToOne(inv, nameByNum, numByName);
    ok := true;
  }

  method SpreadFactorByChannel(inv: seq<Instance>) returns (ok: bool, byChannel: map<nat, nat>)
    ensures ok <==> UniformFactors(inv)
    ensures ok ==> forall i | 0 <= i < |inv| ::
      inv[i].channel.number in byChannel && byChannel[inv[i].channel.number] == inv[i].channel.spreadFactor
    ensures ok ==> forall num | num in byChannel :: exists i | 0 <= i < |inv| :: inv[i].channel.number == num
  {
    byChannel := map[];
    for n := 0 to |inv|
      invariant forall i | 0 <= i < n ::
        inv[i].channel.number in byChannel && byChannel[inv[i].channel.number] == inv[i].channel.spreadFactor
      invariant forall num | num in byChannel :: exists i | 0 <= i < n :: inv[i].channel.number == num
    {
      var ch := inv[n].channel;
      if ch.number in byChannel && byChannel[ch.number] != ch.spreadFactor {
        return false, byChannel;
      }
      byChannel := byChannel[ch.number := ch.spreadFactor];
    }
    ok := true;
  }

  lemma PrefixGrows(claimed: seq<string>, names: seq<string>, k: nat)
    requires k < |names|
    ensures claimed + names[..k + 1] == claimed + names[..k] + [names[k]]
  {
  }

  // The loop over the resolved names of one instance.
  method ClaimNames(inst: Instance, claimed: seq<string>) returns (ok: bool)
    requires Distinct(claimed)
    ensures ok <==> Distinct(claimed + ResolvedNames(inst))
  {
    var names := ResolvedNames(inst);
    var seen := SetOf(claimed);
    assert claimed + names[..0] == claimed;
    for k := 0 to |names|
      invariant seen == SetOf(claimed + names[..k]) && Distinct(claimed + names[..k])
    {
      var name := inst.RegistryName(inst.typ.registers[k]);
      assert name == names[k];
      hide SetOf, Distinct, ResolvedNames;
      OneMoreName(claimed + names[..k], name);
      PrefixGrows(claimed, names, k);
      if name in seen {
        RepeatedSoFar(claimed, names, k + 1);
        return false;
      }
      seen := seen + {name};
    }
    assert names[..|names|] == names;
    ok := true;
  }

  lemma RepeatedSoFar(claimed: seq<string>, names: seq<string>, k: nat)
    requires k <= |names| && !Distinct(claimed + names[..k])
    ensures !Distinct(claimed + names)
  {
    assert claimed + names == claimed + names[..k] + names[k..];
    JoinedDiffer(claimed + names[..k], names[k..]);
    hide Distinct;
  }

  lemma OneMoreName(names: seq<string>, name: string)
    ensures SetOf(names + [name]) == SetOf(names) + {name}
    ensures Distinct(names) ==> (Distinct(names + [name]) <==> name !in SetOf(names))
  {
    JoinedDiffer(names, [name]);
    if name in names {
      var i :| 0 <= i < |names| && names[i] == name;
      assert [name][0] == names[i];
    }
  }

  // ---------- the whole inventory ----------

  ghost predicate DifferentInstances(inv: seq<Instance>, n: nat)
    requires n <= |inv|
  {
    forall i, j | 0 <= i < j < n :: inv[i].name != inv[j].name && inv[i].address != inv[j].address
  }

  ghost predicate NewInstance(inv: seq<Instance>, n: nat)
    requires n < |inv|
  {
    forall i | 0 <= i < n :: inv[i].name != inv[n].name && inv[i].address != inv[n].address
  }

  // The rules for the first n instances that one loop of Validate checks.
  ghost predicate RulesSoFar(inv: seq<Instance>, n: nat)
    requires n <= |inv|
  {
    && (forall i | 0 <= i < n :: InstanceRules(inv[i]))
    && DifferentInstances(inv, n)
    && Distinct(AllNames(inv[..n]))
  }

  lemma DifferenceGrows(inv: seq<Instance>, n: nat)
    requires n < |inv|
    ensures DifferentInstances(inv, n + 1) <==> DifferentInstances(inv, n) && NewInstance(inv, n)
  {
  }

  lemma RulesGrow(inv: seq<Instance>, n: nat)
    requires n < |inv| && RulesSoFar(inv, n)
    ensures RulesSoFar(inv, n + 1) <==>
      InstanceRules(inv[n]) && NewInstance(inv, n) && Distinct(AllNames(inv[..n]) + ResolvedNames(inv[n]))
  {
    AllNamesGrow(inv, n);
    DifferenceGrows(inv, n);
    hide InstanceRules, Distinct, AllNames, DifferentInstances, NewInstance;
  }

  lemma {:induction false} RulesShrink(inv: seq<Instance>, n: nat)
    requires n <= |inv| && RulesSoFar(inv, |inv|)
    ensures RulesSoFar(inv, n)
  {
    hide InstanceRules;
    assert inv[..|inv|] == inv;
    NamesShrink(inv, n);
  }

  lemma {:induction false} NamesShrink(inv: seq<Instance>, n: nat)
    requires n <= |inv| && Distinct(AllNames(inv))
    ensures Distinct(AllNames(inv[..n]))
    decreases |inv|
  {
    if n == |inv| {
      assert inv[..n] == inv;
    } else {
      JoinedDiffer(AllNames(inv[..|inv| - 1]), ResolvedNames(inv[|inv| - 1]));
      NamesShrink(inv[..|inv| - 1], n);
      assert inv[..|inv| - 1][..n] == inv[..n];
    }
  }

  // One turn of the loop over the instances.
  method ValidateInstance(inst: Instance, seenName: set<string>, seenAddress: set<nat>, claimed: seq<string>)
    returns (ok: bool)
    requires Distinct(claimed)
    ensures ok <==> inst.name !in seenName && inst.address !in seenAddress && InstanceRules(inst)
                    && Distinct(claimed + ResolvedNames(inst))
  {
    if inst.name == "" || inst.name in seenName || inst.onlineTimeout < 0 || inst.address == 0
      || inst.address in seenAddress {
      return false;
    }
    hide TypeRules, MappingRules, Distinct;
    ok := ValidateType(inst.typ);
    if ok {
      ok := ValidateMapping(inst);
    }
    if ok {
      ok := ClaimNames(inst, claimed);
    }
  }

  lemma AllNamesGrow(inv: seq<Instance>, n: nat)
    requires n < |inv|
    ensures AllNames(inv[..n + 1]) == AllNames(inv[..n]) + ResolvedNames(inv[n])
  {
    assert inv[..n + 1][..n] == inv[..n];
  }

  ghost predicate Seen(inv: seq<Instance>, n: nat, names: set<string>, addresses: set<nat>)
    requires n <= |inv|
  {
    && (forall s :: s in names <==> exists i | 0 <= i < n :: inv[i].name == s)
    && (forall a :: a in addresses <==> exists i | 0 <= i < n :: inv[i].address == a)
  }

  lemma SeenGrows(inv: seq<Instance>, n: nat, names: set<string>, addresses: set<nat>)
    requires n < |inv| && Seen(inv, n, names, addresses)
    ensures Seen(inv, n + 1, names + {inv[n].name}, addresses + {inv[n].address})
    ensures NewInstance(inv, n) <==> inv[n].name !in names && inv[n].address !in addresses
  {
  }

  // The loop over the instances.
  method ValidateInstances(inv: seq<Instance>) returns (ok: bool)
    ensures ok <==> RulesSoFar(inv, |inv|)
  {
    var seenName: set<string>, seenAddress: set<nat>, claimed: seq<string> := {}, {}, [];
    for n := 0 to |inv|
      invariant Seen(inv, n, seenName, seenAddress)
      invariant claimed == AllNames(inv[..n]) && Distinct(claimed) && RulesSoFar(inv, n)
    {
      RulesGrow(inv, n);
      AllNamesGrow(inv, n);
      SeenGrows(inv, n, seenName, seenAddress);
      hide InstanceRules, Distinct, AllNames, RulesSoFar, Seen, NewInstance;
      ok := ValidateInstance(inv[n], seenName, seenAddress, claimed);
      if !ok {
        RulesNeedEarlier(inv, n + 1);
        return;
      }
      seenName, seenAddress := seenName + {inv[n].name}, seenAddress + {inv[n].address};
      claimed := claimed + ResolvedNames(inv[n]);
    }
    ok := true;
  }

  lemma RulesNeedEarlier(inv: seq<Instance>, n: nat)
    requires n <= |inv| && !RulesSoFar(inv, n)
    ensures !RulesSoFar(inv, |inv|)
  {
    if RulesSoFar(inv, |inv|) {
      RulesShrink(inv, n);
      assert false;
    }
  }

  // Validate returns no error exactly when all the rules hold.
  method Validate(inv: seq<Instance>) returns (ok: bool)
    ensures ok <==> Rules(inv)
  {
    ok := ValidateInstances(inv);
    assert inv[..|inv|] == inv;
    hide InstanceRules, Distinct, AllNames, OneToOne, UniformFactors, ChannelFits;
    if ok {
      ok := ValidateChannels(inv);
    }
    if ok {
      var factors;
      ok, factors := SpreadFactorByChannel(inv);
    }
  }
}
