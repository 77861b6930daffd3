/** From a device type to the descriptor of a node, in lib/site/node/descriptor.go and
    lib/site/cli/start.go: the index, the default conversions, and why nothing can fail
    any more once the inventory has been validated. */
module Descriptors {
  import opened Inventory
  import opened Options

  datatype NodeRegister = NodeRegister(id: Tag, name: string, registryName: string, typ: RegType, readOnly: bool,
                                       conversion: Conversion)

  function FromRegister(r: Register): NodeRegister {
    NodeRegister(r.tag, r.name, "", r.typ, r.readOnly, r.conversion)
  }

  function DefaultConversion(name: string, typ: RegType): Conversion {
    Conversion(Some(DefaultDecode(typ)), Some(DefaultEncode(name, typ)))
  }

  // A register with the conversions that were left out.
  function Completed(r: NodeRegister): NodeRegister {
    if r.conversion.decode.Some? then r
    else if r.readOnly then r.(conversion := r.conversion.(decode := DefaultConversion(r.name, r.typ).decode))
    else r.(conversion := DefaultConversion(r.name, r.typ))
  }

  // And with its Registry name on an instance.
  function Resolved(inst: Instance, r: Register): NodeRegister {
    Completed(FromRegister(r)).(registryName := inst.RegistryName(r))
  }

  // A conversion that was given is kept, and one that was left out becomes the default of
  // its type; a read-only register gets nothing to encode with, and nothing else changes.
  lemma CompletedFillsIn(r: NodeRegister)
    requires r.conversion.Fits(r.readOnly)
    ensures var c := Completed(r);
      && c.id == r.id && c.name == r.name && c.registryName == r.registryName && c.typ == r.typ
      && c.readOnly == r.readOnly
      && c.conversion.decode ==
           (if r.conversion.decode.Some? then r.conversion.decode else Some(DefaultDecode(r.typ)))
      && c.conversion.encode ==
           if r.conversion.encode.Some? then r.conversion.encode
           else if r.readOnly then None else Some(DefaultEncode(r.name, r.typ))
  {
  }

  // Every register can be read, and written exactly if it is not read-only.
  lemma CompletedConverts(r: NodeRegister)
    requires r.conversion.Fits(r.readOnly)
    ensures Completed(r).conversion.decode.Some?
    ensures Completed(r).conversion.encode.None? <==> r.readOnly
  {
  }

  // What NewDescriptor needs; unlike the inventory it accepts an empty name.
  ghost predicate Indexable(regs: seq<NodeRegister>) {
    && (forall i | 0 <= i < |regs| :: regs[i].id != 0 && regs[i].conversion.Fits(regs[i].readOnly))
    && (forall i, j | 0 <= i < j < |regs| :: regs[i].id != regs[j].id && regs[i].name != regs[j].name)
  }

  // Linear search, which the two maps replace.
  function SearchId(regs: seq<NodeRegister>, id: Tag): Option<nat> {
    if regs == [] then None
    else if regs[|regs| - 1].id == id then Some(|regs| - 1) else SearchId(regs[..|regs| - 1], id)
  }

  function SearchName(regs: seq<NodeRegister>, name: string): Option<nat> {
    if regs == [] then None
    else if regs[|regs| - 1].name == name then Some(|regs| - 1) else SearchName(regs[..|regs| - 1], name)
  }

  lemma {:induction false} SearchIdIsExact(regs: seq<NodeRegister>, id: Tag)
    ensures match SearchId(regs, id)
      case Some(i) => i < |regs| && regs[i].id == id
      case None => forall i | 0 <= i < |regs| :: regs[i].id != id
  {
    if regs != [] {
      SearchIdIsExact(regs[..|regs| - 1], id);
      assert forall i | 0 <= i < |regs| - 1 :: regs[..|regs| - 1][i] == regs[i];
    }
  }

  lemma {:induction false} SearchNameIsExact(regs: seq<NodeRegister>, name: string)
    ensures match SearchName(regs, name)
      case Some(i) => i < |regs| && regs[i].name == name
      case None => forall i | 0 <= i < |regs| :: regs[i].name != name
  {
    if regs != [] {
      SearchNameIsExact(regs[..|regs| - 1], name);
      assert forall i | 0 <= i < |regs| - 1 :: regs[..|regs| - 1][i] == regs[i];
    }
  }

  lemma Clash(regs: seq<NodeRegister>, i: nat, n: nat)
    requires i < n < |regs| && (regs[i].id == regs[n].id || regs[i].name == regs[n].name)
    ensures !Indexable(regs)
  {
  }

  lemma IndexableIs(regs: seq<NodeRegister>)
    ensures Indexable(regs) <==>
      && (forall i | 0 <= i < |regs| ::
            regs[i].id != 0 && (if regs[i].readOnly then regs[i].conversion.encode.None?
                                else regs[i].conversion.decode.Some? <==> regs[i].conversion.encode.Some?))
      && (forall i, j | 0 <= i < j < |regs| :: regs[i].id != regs[j].id && regs[i].name != regs[j].name)
  {
  }

  lemma IndexableFits(regs: seq<NodeRegister>, i: nat)
    requires Indexable(regs) && i < |regs|
    ensures regs[i].conversion.Fits(regs[i].readOnly)
  {
  }

  lemma IndexableGrows(regs: seq<NodeRegister>, n: nat)
    requires n < |regs| && Indexable(regs[..n]) && regs[n].id != 0 && regs[n].conversion.Fits(regs[n].readOnly)
    requires forall i | 0 <= i < n :: regs[i].id != regs[n].id && regs[i].name != regs[n].name
    ensures Indexable(regs[..n + 1])
  {
    assert forall i | 0 <= i < n :: regs[..n + 1][i] == regs[..n][i];
  }

  // The maps hold the positions of registers in the table, so a later change of the
  // table, such as a Registry name, shows through them.
  class Descriptor {
    const registers: array<NodeRegister>
    var byId: map<Tag, nat>
    var byName: map<string, nat>

    constructor (regs: seq<NodeRegister>)
      ensures fresh(registers) && registers[..] == regs && byId == map[] && byName == map[]
    {
      registers := new NodeRegister[|regs|](i requires 0 <= i < |regs| => regs[i]);
      byId, byName := map[], map[];
    }

    // Both maps find exactly the registers of the first n.
    ghost predicate Indexed(n: nat)
      reads this, registers
      requires n <= registers.Length
    {
      && (forall i | 0 <= i < n :: registers[i].id in byId && byId[registers[i].id] == i)
      && (forall id | id in byId :: byId[id] < n && registers[byId[id]].id == id)
      && (forall i | 0 <= i < n :: registers[i].name in byName && byName[registers[i].name] == i)
      && (forall name | name in byName :: byName[name] < n && registers[byName[name]].name == name)
    }

    ghost predicate Valid()
      reads this, registers
    {
      Indexed(registers.Length)
    }

    // The end of one turn of the loop of index.
    method AddRegister(n: nat)
      requires n < registers.Length && Indexed(n) && registers[n].id !in byId && registers[n].name !in byName
      modifies this`byId, this`byName, registers
      ensures Indexed(n + 1) && registers[n] == Completed(old(registers[n]))
      ensures forall i | 0 <= i < registers.Length && i != n :: registers[i] == old(registers[i])
    {
      var r := registers[n];
      registers[n] := Completed(r);
      byId := byId[r.id := n];
      byName := byName[r.name := n];
    }

    // The loop of index, which completes each register in place.
    method Index() returns (ok: bool)
      requires byId == map[] && byName == map[]
      modifies this, registers
      ensures ok <==> Indexable(old(registers[..]))
      ensures ok <==>
        && (forall i | 0 <= i < registers.Length ::
              var r := old(registers[i]);
              r.id != 0 && (if r.readOnly then r.conversion.encode.None?
                            else r.conversion.decode.Some? <==> r.conversion.encode.Some?))
        && (forall i, j | 0 <= i < j < registers.Length ::
              old(registers[i]).id != old(registers[j]).id && old(registers[i]).name != old(registers[j]).name)
      ensures ok ==> Valid() && forall i | 0 <= i < registers.Length :: registers[i] == Completed(old(registers[i]))
      ensures ok ==> forall i | 0 <= i < registers.Length ::
        var was, r := old(registers[i]), registers[i];
        && r.id == was.id && r.name == was.name && r.registryName == was.registryName
        && r.typ == was.typ && r.readOnly == was.readOnly
        && r.conversion.decode ==
             (if was.conversion.decode.Some? then was.conversion.decode else Some(DefaultDecode(was.typ)))
        && r.conversion.encode ==
             if was.conversion.encode.Some? then was.conversion.encode
             else if was.readOnly then None else Some(DefaultEncode(was.name, was.typ))
    {
      ok := IndexAll();
      IndexableIs(old(registers[..]));
      assert forall i | 0 <= i < registers.Length :: old(registers[..])[i] == old(registers[i]);
      hide Valid, Indexable, Completed;
      if ok {
        forall i | 0 <= i < registers.Length ensures old(registers[i]).conversion.Fits(old(registers[i]).readOnly) {
          IndexableFits(old(registers[..]), i);
        }
        forall i | 0 <= i < registers.Length {
          CompletedFillsIn(old(registers[i]));
        }
      }
    }

    method IndexAll() returns (ok: bool)
      requires byId == map[] && byName == map[]
      modifies this, registers
      ensures ok <==> Indexable(old(registers[..]))
      ensures ok ==> Valid() && forall i | 0 <= i < registers.Length :: registers[i] == Completed(old(registers[i]))
    {
      ghost var was := registers[..];
      for n := 0 to registers.Length
        invariant Indexed(n)
        invariant Indexable(was[..n])
        invariant forall i | 0 <= i < n :: registers[i] == Completed(was[i])
        invariant forall i | n <= i < registers.Length :: registers[i] == was[i]
      {
        var r := registers[n];
        if r.id == 0 || !r.conversion.Fits(r.readOnly) {
          return false;
        }
        if r.id in byId {
          Clash(was, byId[r.id], n);
          return false;
        }
        if r.name in byName {
          Clash(was, byName[r.name], n);
          return false;
        }
        IndexableGrows(was, n);
        hide Completed, Indexable;
        AddRegister(n);
      }
      assert was[..registers.Length] == was;
      ok := true;
    }

    method SetRegistryName(index: nat, name: string)
      requires Valid() && index < registers.Length
      modifies registers
      ensures Valid() && registers[index] == old(registers[index]).(registryName := name)
      ensures forall i | 0 <= i < registers.Length && i != index :: registers[i] == old(registers[i])
    {
      registers[index] := registers[index].(registryName := name);
    }

    method ById(id: Tag) returns (r: Option<nat>)
      requires Valid()
      ensures r == SearchId(registers[..], id)
    {
      SearchIdIsExact(registers[..], id);
      r := if id in byId then Some(byId[id]) else None;
    }

    method ByName(name: string) returns (r: Option<nat>)
      requires Valid()
      ensures r == SearchName(registers[..], name)
    {
      SearchNameIsExact(registers[..], name);
      r := if name in byName then Some(byName[name]) else None;
    }
  }

  // ---------- from the inventory to the nodes ----------

  method NewDescriptor(regs: seq<NodeRegister>) returns (d: Descriptor, ok: bool)
    ensures fresh(d) && fresh(d.registers) && d.registers.Length == |regs|
    ensures ok <==> Indexable(regs)
    ensures ok ==> d.Valid() && forall i | 0 <= i < |regs| :: d.registers[i] == Completed(regs[i])
  {
    hide Completed, Indexable;
    d := new Descriptor(regs);
    ok := d.Index();
    hide d.Valid;
  }

  method DescriptorFor(dt: DeviceType) returns (d: Descriptor, ok: bool)
    ensures fresh(d) && fresh(d.registers) && d.registers.Length == |dt.registers|
    ensures ok <==> Indexable(TableOf(dt))
    ensures ok ==> d.Valid() && forall i | 0 <= i < |dt.registers| ::
      d.registers[i] == Completed(FromRegister(dt.registers[i]))
  {
    var regs: seq<NodeRegister> := [];
    for i := 0 to |dt.registers|
      invariant regs == TableOf(dt)[..i]
    {
      regs := regs + [FromRegister(dt.registers[i])];
    }
    assert regs == TableOf(dt);
    hide Completed, FromRegister, Indexable, TableOf;
    d, ok := NewDescriptor(regs);
  }

  function TableOf(dt: DeviceType): (r: seq<NodeRegister>)
    ensures |r| == |dt.registers| && forall i | 0 <= i < |r| :: r[i] == FromRegister(dt.registers[i])
  {
    seq(|dt.registers|, i requires 0 <= i < |dt.registers| => FromRegister(dt.registers[i]))
  }

  // buildNode: the descriptor, and then the resolved Registry names written into its table.
  method BuildNode(inst: Instance) returns (d: Descriptor, ok: bool)
    ensures ok <==> Indexable(TableOf(inst.typ))
    ensures ok ==> d.Valid() && d.registers.Length == |inst.typ.registers|
    ensures ok ==> forall i | 0 <= i < |inst.typ.registers| ::
      d.registers[i] == Resolved(inst, inst.typ.registers[i])
    ensures ok ==> forall i | 0 <= i < |inst.typ.registers| ::
      d.registers[i].registryName ==
        if inst.typ.registers[i].tag in inst.registryNames then inst.registryNames[inst.typ.registers[i].tag]
        else inst.name + "." + inst.typ.registers[i].name
  {
    d, ok := DescriptorFor(inst.typ);
    if !ok {
      return;
    }
    for index := 0 to |inst.typ.registers|
      modifies d.registers
      invariant d.Valid()
      invariant forall i | index <= i < d.registers.Length ::
        d.registers[i] == Completed(FromRegister(inst.typ.registers[i]))
      invariant forall i | 0 <= i < index ::
        d.registers[i] == Resolved(inst, inst.typ.registers[i])
    {
      hide Completed, FromRegister, d.Valid;
      d.SetRegistryName(index, inst.RegistryName(inst.typ.registers[index]));
    }
  }

  // A valid device type can always be indexed.
  lemma ValidTypeIndexes(dt: DeviceType)
    requires TypeRules(dt)
    ensures Indexable(TableOf(dt))
  {
    forall i | 0 <= i < |dt.registers|
      ensures TableOf(dt)[i].id != 0 && TableOf(dt)[i].conversion.Fits(TableOf(dt)[i].readOnly)
    {
      assert dt.registers[i].conversion.Fits(dt.registers[i].readOnly);
    }
  }

  // So building never fails on an instance of a validated inventory, and the node it
  // builds is complete: every register decodes, exactly the writable ones encode, the
  // lookups agree with linear search, and each register has its resolved Registry name.
  method BuildValidNode(inv: seq<Instance>, n: nat) returns (d: Descriptor, ok: bool)
    requires Rules(inv) && n < |inv|
    ensures ok && Complete(d, inv[n])
  {
    assert InstanceRules(inv[n]);
    ValidTypeIndexes(inv[n].typ);
    hide Complete, TypeRules, Indexable, Completed, Rules;
    d, ok := BuildNode(inv[n]);
    BuiltIsComplete(d, inv[n]);
  }

  // Each register as the device type has it, under its mapped name or the default one, with
  // the conversions it was given and the defaults of its type for those left out.
  ghost predicate Complete(d: Descriptor, inst: Instance)
    reads d, d.registers
  {
    && d.Valid() && d.registers.Length == |inst.typ.registers|
    && forall i | 0 <= i < d.registers.Length ::
         var r := inst.typ.registers[i];
         && BuiltFrom(inst, r, d.registers[i])
         && SearchId(d.registers[..], r.tag) == Some(i) && SearchName(d.registers[..], r.name) == Some(i)
  }

  lemma FoundInPlace(regs: seq<NodeRegister>, i: nat)
    requires i < |regs|
    requires forall j, k | 0 <= j < k < |regs| :: regs[j].id != regs[k].id && regs[j].name != regs[k].name
    ensures SearchId(regs, regs[i].id) == Some(i) && SearchName(regs, regs[i].name) == Some(i)
  {
    SearchIdIsExact(regs, regs[i].id);
    SearchNameIsExact(regs, regs[i].name);
    hide SearchId, SearchName;
  }

  ghost predicate BuiltFrom(inst: Instance, r: Register, built: NodeRegister) {
    && built.id == r.tag && built.name == r.name && built.typ == r.typ && built.readOnly == r.readOnly
    && built.registryName ==
         (if r.tag in inst.registryNames then inst.registryNames[r.tag] else inst.name + "." + r.name)
    && built.conversion.decode ==
         (if r.conversion.decode.Some? then r.conversion.decode else Some(DefaultDecode(r.typ)))
    && built.conversion.encode ==
         (if r.conversion.encode.Some? then r.conversion.encode
          else if r.readOnly then None else Some(DefaultEncode(r.name, r.typ)))
    && built.conversion.decode.Some? && (built.conversion.encode.None? <==> r.readOnly)
  }

  lemma BuiltRegister(inst: Instance, r: Register)
    requires r.conversion.Fits(r.readOnly)
    ensures BuiltFrom(inst, r, Resolved(inst, r))
  {
    CompletedFillsIn(FromRegister(r));
    hide Completed;
  }

  lemma BuiltIsComplete(d: Descriptor, inst: Instance)
    requires TypeRules(inst.typ) && d.Valid() && d.registers.Length == |inst.typ.registers|
    requires forall i | 0 <= i < |inst.typ.registers| ::
      d.registers[i] == Resolved(inst, inst.typ.registers[i])
    ensures Complete(d, inst)
  {
    var regs := d.registers[..];
    forall i | 0 <= i < |regs| ensures BuiltFrom(inst, inst.typ.registers[i], regs[i]) {
      BuiltRegister(inst, inst.typ.registers[i]);
      hide Resolved, BuiltFrom;
    }
    forall i | 0 <= i < |regs|
      ensures SearchId(regs, regs[i].id) == Some(i) && SearchName(regs, regs[i].name) == Some(i)
    {
      FoundInPlace(regs, i);
    }
    hide Resolved, Completed, SearchId, SearchName, FromRegister, TypeRules;
  }
}
