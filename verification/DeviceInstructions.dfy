/** The device instructions with variable-length account lists: builders, processors, and the
    proofs that the second undoes the first. */
module DeviceInstructions {
  import opened Basics
  import opened Onchain
  import opened AccountLists

  datatype CreateArgs = CreateArgs(dzPrefixes: seq<Network>, resourceCount: U8)

  datatype DeleteArgs = DeleteArgs(resourceCount: U8)

  datatype UpdateArgs = UpdateArgs(dzPrefixes: Option<seq<Network>>, resourceCount: nat)

  datatype CreateInterfaceArgs = CreateInterfaceArgs(isVpnv4: bool, useOnchainAllocation: bool, topologyCount: U8)

  datatype UpdateInterfaceArgs = UpdateInterfaceArgs(nodeSegmentIdx: Option<U16>, topologyCount: U8,
                                                     updateTopologies: bool)

  /** How deleting a device closes its resource accounts. `owners[i]` owns resource `i`. */
  datatype DeleteResources =
    | Legacy
    | Atomic(location: Pubkey, exchange: Pubkey, owners: seq<Pubkey>, deviceOwner: Pubkey)

  // --- layouts ---

  function CreateHead(device: Pubkey, contributor: Pubkey, location: Pubkey, exchange: Pubkey): seq<Meta> {
    [Writable(device), Writable(contributor), Writable(location), Writable(exchange), Writable(GlobalStatePda),
     Writable(GlobalConfigPda)]
  }

  function CreateDeviceList(payer: Pubkey, contributor: Pubkey, location: Pubkey, exchange: Pubkey, index: nat,
                            n: nat): seq<Meta> {
    CreateHead(DevicePda(index), contributor, location, exchange) + Writables(DeviceResources(DevicePda(index), n))
    + Trailing(payer)
  }

  function DeviceHead(device: Pubkey, contributor: Pubkey): seq<Meta> {
    [Writable(device), Writable(contributor), Writable(GlobalStatePda)]
  }

  /** The first `count` resource accounts. */
  function ResourceMetas(device: Pubkey, count: nat): seq<Meta> {
    if count == 0 then [] else Writables(DeviceResources(device, count - 1))
  }

  function CloseAccounts(device: Pubkey, resources: DeleteResources): seq<Meta> {
    if resources.Legacy? then []
    else
      [Writable(resources.location), Writable(resources.exchange)]
      + (ResourceMetas(device, |resources.owners|) + (Writables(resources.owners) + [Writable(resources.deviceOwner)]))
  }

  function DeleteDeviceList(payer: Pubkey, device: Pubkey, contributor: Pubkey, resources: DeleteResources): seq<Meta> {
    DeviceHead(device, contributor) + CloseAccounts(device, resources) + Trailing(payer)
  }

  function UpdateHead(device: Pubkey, contributor: Pubkey, oldLocation: Pubkey, newLocation: Pubkey): seq<Meta> {
    [Writable(device), Writable(contributor), Writable(oldLocation), Writable(newLocation), Writable(GlobalStatePda)]
  }

  function Max(a: nat, b: nat): nat {
    if a <= b then b else a
  }

  /** How many prefixes an update has to cover. */
  function Covered(oldCount: nat, dzPrefixes: Option<seq<Network>>): nat {
    if dzPrefixes.None? then 0 else Max(oldCount, |dzPrefixes.value|)
  }

  function PrefixAccounts(device: Pubkey, oldCount: nat, dzPrefixes: Option<seq<Network>>): seq<Meta> {
    if dzPrefixes.None? then []
    else [Writable(GlobalConfigPda)] + Writables(DeviceResources(device, Covered(oldCount, dzPrefixes)))
  }

  function UpdateDeviceList(
    payer: Pubkey, device: Pubkey, contributor: Pubkey, oldLocation: Pubkey, newLocation: Pubkey, oldCount: nat,
    dzPrefixes: Option<seq<Network>>): seq<Meta>
  {
    UpdateHead(device, contributor, oldLocation, newLocation) + PrefixAccounts(device, oldCount, dzPrefixes)
    + Trailing(payer)
  }

  function Topologies(names: seq<string>): seq<Pubkey> {
    seq(|names|, i requires 0 <= i < |names| => TopologyPda(names[i]))
  }

  function InterfaceHead(device: Pubkey, contributor: Pubkey): seq<Meta> {
    DeviceHead(device, contributor) + [Writable(ResourcePda(DeviceTunnelBlock)),
                                       Writable(ResourcePda(SegmentRoutingIds))]
  }

  function CreateInterfaceList(payer: Pubkey, device: Pubkey, contributor: Pubkey, names: seq<string>,
                               isVpnv4: bool): seq<Meta> {
    InterfaceHead(device, contributor) + (if isVpnv4 then Readonlys(Topologies(names)) else []) + Trailing(payer)
  }

  function SegmentAccounts(nodeSegmentIdx: Option<U16>, names: Option<seq<string>>): seq<Meta> {
    if nodeSegmentIdx.None? && names.None? then []
    else [Writable(ResourcePda(SegmentRoutingIds))] + if names.Some? then Readonlys(Topologies(names.value)) else []
  }

  function UpdateInterfaceList(payer: Pubkey, device: Pubkey, contributor: Pubkey, nodeSegmentIdx: Option<U16>,
                               names: Option<seq<string>>): seq<Meta> {
    DeviceHead(device, contributor) + SegmentAccounts(nodeSegmentIdx, names) + Trailing(payer)
  }

  // --- builders; `None` is the panic on a count that does not fit its field ---

  method CreateDevice(payer: Pubkey, contributor: Pubkey, location: Pubkey, exchange: Pubkey, index: nat,
                      args: CreateArgs)
    returns (ix: Option<Instruction<CreateArgs>>)
    ensures ix.Some? <==> 1 + |args.dzPrefixes| <= U8_MAX
    ensures ix.Some? ==> ix.value.args == args.(resourceCount := 1 + |args.dzPrefixes|)
                         && ix.value.accounts
                            == CreateDeviceList(payer, contributor, location, exchange, index, |args.dzPrefixes|)
  {
    var device := DevicePda(index);
    var n := |args.dzPrefixes|;
    var accounts := CreateHead(device, contributor, location, exchange) + [Writable(ResourcePda(TunnelIds(device, 0)))];
    accounts := PushPrefixBlocks(accounts, device, n);
    DeviceResourceMetas(device, n);
    Regroup(CreateHead(device, contributor, location, exchange), [Writable(ResourcePda(TunnelIds(device, 0)))],
            Writables(PrefixBlocks(device, n)));
    var total := 1 + n;
    if total > U8_MAX {
      return None;
    }
    var built := Build(args.(resourceCount := total), accounts, payer);
    ix := Some(built);
  }

  method DeleteDevice(payer: Pubkey, device: Pubkey, contributor: Pubkey, resources: DeleteResources)
    returns (ix: Option<Instruction<DeleteArgs>>)
    ensures ix.None? <==> resources.Atomic? && |resources.owners| > U8_MAX
    ensures ix.Some? ==> ix.value.args == DeleteArgs(if resources.Legacy? then 0 else |resources.owners|)
                         && ix.value.accounts == DeleteDeviceList(payer, device, contributor, resources)
  {
    var accounts := DeviceHead(device, contributor);
    match resources
    case Legacy =>
      assert accounts + [] == accounts;
      var built := Build(DeleteArgs(0), accounts, payer);
      ix := Some(built);
    case Atomic(location, exchange, owners, deviceOwner) =>
      var close := [Writable(location), Writable(exchange)];
      close := PushResources(close, device, |owners|);
      close := PushAccounts(close, owners);
      close := close + [Writable(deviceOwner)];
      assert close == CloseAccounts(device, resources);
      if |owners| > U8_MAX {
        return None;
      }
      var built := Build(DeleteArgs(|owners|), accounts + close, payer);
      ix := Some(built);
  }

  method UpdateDevice(payer: Pubkey, device: Pubkey, contributor: Pubkey, oldLocation: Pubkey, newLocation: Pubkey,
                      oldCount: nat, args: UpdateArgs)
    returns (ix: Instruction<UpdateArgs>)
    ensures ix.args
            == args.(resourceCount := if args.dzPrefixes.None? then 0 else Covered(oldCount, args.dzPrefixes) + 1)
    ensures ix.accounts == UpdateDeviceList(payer, device, contributor, oldLocation, newLocation, oldCount,
                                            args.dzPrefixes)
  {
    var accounts := UpdateHead(device, contributor, oldLocation, newLocation);
    var count := 0;
    if args.dzPrefixes.Some? {
      var maxCount := Max(oldCount, |args.dzPrefixes.value|);
      var prefixes := [Writable(GlobalConfigPda)];
      prefixes := PushResources(prefixes, device, maxCount + 1);
      accounts := accounts + prefixes;
      count := maxCount + 1;
    } else {
      assert accounts + [] == accounts;
    }
    ix := Build(args.(resourceCount := count), accounts, payer);
  }

  method CreateDeviceInterface(payer: Pubkey, device: Pubkey, contributor: Pubkey, names: seq<string>,
                               args: CreateInterfaceArgs)
    returns (ix: Option<Instruction<CreateInterfaceArgs>>)
    ensures ix.None? <==> args.isVpnv4 && |names| > U8_MAX
    ensures ix.Some? ==>
      && ix.value.args == args.(useOnchainAllocation := true, topologyCount := if args.isVpnv4 then |names| else 0)
      && ix.value.accounts == CreateInterfaceList(payer, device, contributor, names, args.isVpnv4)
  {
    var accounts := InterfaceHead(device, contributor);
    if args.isVpnv4 {
      accounts := PushTopologies(accounts, names);
    } else {
      assert accounts + [] == accounts;
    }
    var count := if args.isVpnv4 then |names| else 0;
    if count > U8_MAX {
      return None;
    }
    var built := Build(args.(useOnchainAllocation := true, topologyCount := count), accounts, payer);
    ix := Some(built);
  }

  method UpdateDeviceInterface(payer: Pubkey, device: Pubkey, contributor: Pubkey, names: Option<seq<string>>,
                               args: UpdateInterfaceArgs)
    returns (ix: Option<Instruction<UpdateInterfaceArgs>>)
    ensures ix.None? <==> names.Some? && |names.value| > U8_MAX
    ensures ix.Some? ==>
      && ix.value.args == args.(updateTopologies := names.Some?,
                                topologyCount := if names.Some? then |names.value| else 0)
      && ix.value.accounts == UpdateInterfaceList(payer, device, contributor, args.nodeSegmentIdx, names)
  {
    var count := if names.Some? then |names.value| else 0;
    if count > U8_MAX {
      return None;
    }
    var own: seq<Meta> := [];
    if args.nodeSegmentIdx.Some? || names.Some? {
      own := own + [Writable(ResourcePda(SegmentRoutingIds))];
    }
    if names.Some? {
      own := PushTopologies(own, names.value);
    }
    assert own == SegmentAccounts(args.nodeSegmentIdx, names);
    var built := Build(args.(updateTopologies := names.Some?, topologyCount := count),
                       DeviceHead(device, contributor) + own, payer);
    ix := Some(built);
  }

  method PushTopologies(accounts: seq<Meta>, names: seq<string>) returns (all: seq<Meta>)
    ensures all == accounts + Readonlys(Topologies(names))
  {
    all := accounts;
    for i := 0 to |names|
      invariant all == accounts + Readonlys(Topologies(names))[..i]
    {
      all := all + [Readonly(TopologyPda(names[i]))];
    }
  }

  lemma DeviceResourceMetas(device: Pubkey, n: nat)
    ensures Writables(DeviceResources(device, n))
            == [Writable(ResourcePda(TunnelIds(device, 0)))] + Writables(PrefixBlocks(device, n))
  {
  }

  // --- processors ---

  datatype CreateRoles = CreateRoles(
    device: Meta, contributor: Meta, location: Meta, exchange: Meta, globalstate: Meta, globalconfig: Meta,
    resources: seq<Meta>, tail: Tail)

  function ProcessCreateDevice(args: CreateArgs, accounts: seq<Meta>): Parse<CreateRoles> {
    var h :- Take(accounts, 6);
    var roles :- FinishCreateDevice(h.taken, h.rest, args.resourceCount);
    if args.resourceCount != 1 + |args.dzPrefixes| then Err(InvalidArgument) else Ok(roles)
  }

  function FinishCreateDevice(head: seq<Meta>, rest: seq<Meta>, count: nat): Parse<CreateRoles>
    requires |head| == 6
  {
    var r :- Take(rest, count);
    var tail :- ReadTail(r.rest);
    Ok(CreateRoles(head[0], head[1], head[2], head[3], head[4], head[5], r.taken, tail))
  }

  datatype CloseRoles = CloseRoles(location: Meta, exchange: Meta, resources: seq<Meta>, owners: seq<Meta>,
                                   deviceOwner: Meta)

  datatype DeleteRoles = DeleteRoles(device: Meta, contributor: Meta, globalstate: Meta, close: Option<CloseRoles>,
                                     tail: Tail)

  datatype CloseAnd = CloseAnd(close: Option<CloseRoles>, rest: seq<Meta>)

  function ReadClose(rest: seq<Meta>, count: nat): Parse<CloseAnd> {
    if count == 0 then Ok(CloseAnd(None, rest))
    else
      var l :- Take(rest, 2);
      var r :- Take(l.rest, count);
      var o :- Take(r.rest, count);
      var d :- Take(o.rest, 1);
      Ok(CloseAnd(Some(CloseRoles(l.taken[0], l.taken[1], r.taken, o.taken, d.taken[0])), d.rest))
  }

  function ProcessDeleteDevice(args: DeleteArgs, accounts: seq<Meta>): Parse<DeleteRoles> {
    var h :- Take(accounts, 3);
    var c :- ReadClose(h.rest, args.resourceCount);
    var tail :- ReadTail(c.rest);
    Ok(DeleteRoles(h.taken[0], h.taken[1], h.taken[2], c.close, tail))
  }

  datatype UpdateRoles = UpdateRoles(
    device: Meta, contributor: Meta, locations: Option<(Meta, Meta)>, globalstate: Meta, globalconfig: Option<Meta>,
    resources: seq<Meta>, tail: Tail)

  predicate AreResourcesOf(device: Pubkey, resources: seq<Meta>) {
    forall i | 0 <= i < |resources| ::
      resources[i].key == ResourcePda(if i == 0 then TunnelIds(device, 0) else DzPrefixBlock(device, i - 1))
  }

  datatype PrefixesAnd = PrefixesAnd(globalconfig: Option<Meta>, resources: seq<Meta>)

  /** Read the prefix accounts of an update of the device at `device`. */
  function ReadPrefixes(rest: seq<Meta>, device: Pubkey, count: nat): Parse<PrefixesAnd> {
    if count == 0 then Ok(PrefixesAnd(None, []))
    else if count < 2 then Err(Panicked)
    else
      var g :- Take(rest, 1);
      var r :- Take(g.rest, count);
      if AreResourcesOf(device, r.taken) then Ok(PrefixesAnd(Some(g.taken[0]), r.taken)) else Err(Panicked)
  }

  /** `onchainCount` is the number of prefixes recorded in the device account. */
  function ProcessUpdateDevice(args: UpdateArgs, accounts: seq<Meta>, onchainCount: nat): Parse<UpdateRoles> {
    var s :- SplitTrailingPermission(accounts);
    var without := 3 + (if args.resourceCount > 0 then 1 else 0) + args.resourceCount;
    if |s.leading| != without && |s.leading| != without + 2 then Err(InvalidArgument)
    else
      var hasLocations := |s.leading| == without + 2;
      var h :- Take(s.leading, if hasLocations then 5 else 3);
      var p :- ReadPrefixes(h.rest, h.taken[0].key, args.resourceCount);
      if args.dzPrefixes.Some?
         && (p.globalconfig.None? || |p.resources| != Max(onchainCount, |args.dzPrefixes.value|) + 1) then
        Err(Panicked)
      else
        Ok(UpdateRoles(h.taken[0], h.taken[1], if hasLocations then Some((h.taken[2], h.taken[3])) else None,
                       if hasLocations then h.taken[4] else h.taken[2], p.globalconfig, p.resources, s.tail))
  }

  datatype CreateInterfaceRoles = CreateInterfaceRoles(
    device: Meta, contributor: Meta, globalstate: Meta, deviceTunnelBlock: Meta, segmentRoutingIds: Meta,
    topologies: seq<Meta>, tail: Tail)

  function ProcessCreateDeviceInterface(args: CreateInterfaceArgs, accounts: seq<Meta>): Parse<CreateInterfaceRoles> {
    if !args.useOnchainAllocation then Err(InvalidArgument)
    else
      var h :- Take(accounts, 5);
      var t :- Take(h.rest, args.topologyCount);
      var tail :- ReadTail(t.rest);
      Ok(CreateInterfaceRoles(h.taken[0], h.taken[1], h.taken[2], h.taken[3], h.taken[4], t.taken, tail))
  }

  datatype UpdateInterfaceRoles = UpdateInterfaceRoles(
    device: Meta, contributor: Meta, globalstate: Meta, segmentRoutingIds: Option<Meta>, topologies: seq<Meta>,
    tail: Tail)

  function ProcessUpdateDeviceInterface(args: UpdateInterfaceArgs, accounts: seq<Meta>): Parse<UpdateInterfaceRoles> {
    var h :- Take(accounts, 3);
    var s :- SplitTrailingPermission(h.rest);
    Ok(UpdateInterfaceRoles(h.taken[0], h.taken[1], h.taken[2],
                            if s.leading == [] then None else Some(s.leading[0]),
                            if s.leading == [] then [] else s.leading[1..], s.tail))
  }

  // --- the processors undo the builders ---

  lemma ReadsHead(head: seq<Meta>, own: seq<Meta>, payer: Pubkey, mode: Mode)
    ensures Take(WithMode(head + own + Trailing(payer), payer, mode), |head|)
            == Ok(Taken(head, own + TrailingIn(payer, mode)))
  {
    var t := TrailingIn(payer, mode);
    TrailingSplits(head + own, payer, mode);
    Regroup(head, own, t);
    TakeAppended(head, own + t);
  }

  /** For every number of prefixes, before and after permissions. */
  lemma CreateDeviceRoundTrip(
    payer: Pubkey, contributor: Pubkey, location: Pubkey, exchange: Pubkey, index: nat, args: CreateArgs, mode: Mode)
    requires 1 + |args.dzPrefixes| <= U8_MAX
    ensures
      var n := |args.dzPrefixes|;
      ProcessCreateDevice(args.(resourceCount := 1 + n),
                          WithMode(CreateDeviceList(payer, contributor, location, exchange, index, n), payer, mode))
      == Ok(CreateRoles(Writable(DevicePda(index)), Writable(contributor), Writable(location), Writable(exchange),
                        Writable(GlobalStatePda), Writable(GlobalConfigPda),
                        Writables(DeviceResources(DevicePda(index), n)), TailOf(payer, mode)))
  {
    var own := Writables(DeviceResources(DevicePda(index), |args.dzPrefixes|));
    var head := CreateHead(DevicePda(index), contributor, location, exchange);
    ReadsHead(head, own, payer, mode);
    FinishesCreateDevice(head, own, payer, mode);
  }

  lemma FinishesCreateDevice(head: seq<Meta>, own: seq<Meta>, payer: Pubkey, mode: Mode)
    requires |head| == 6
    ensures FinishCreateDevice(head, own + TrailingIn(payer, mode), |own|)
            == Ok(CreateRoles(head[0], head[1], head[2], head[3], head[4], head[5], own, TailOf(payer, mode)))
  {
    TakeAppended(own, TrailingIn(payer, mode));
    ReadsTail(payer, mode);
  }

  function CloseRolesOf(device: Pubkey, resources: DeleteResources): Option<CloseRoles> {
    if resources.Legacy? then None
    else Some(CloseRoles(Writable(resources.location), Writable(resources.exchange),
                         ResourceMetas(device, |resources.owners|),
                         Writables(resources.owners), Writable(resources.deviceOwner)))
  }

  lemma ReadsClose(device: Pubkey, resources: DeleteResources, t: seq<Meta>)
    requires resources.Atomic? && resources.owners != []
    ensures ReadClose(CloseAccounts(device, resources) + t, |resources.owners|)
            == Ok(CloseAnd(CloseRolesOf(device, resources), t))
  {
    var l := [Writable(resources.location), Writable(resources.exchange)];
    var r, o, d := ResourceMetas(device, |resources.owners|), Writables(resources.owners),
                   [Writable(resources.deviceOwner)];
    assert |r| == |o| == |resources.owners|;
    Regroup(l, r + (o + d), t);
    Regroup(r, o + d, t);
    Regroup(o, d, t);
    TakeAppended(l, r + (o + (d + t)));
    TakeAppended(r, o + (d + t));
    TakeAppended(o, d + t);
    TakeAppended(d, t);
  }

  lemma EmptyCloseIsTail(device: Pubkey, resources: DeleteResources, t: seq<Meta>)
    requires resources.Atomic? && resources.owners == []
    ensures ReadTail(CloseAccounts(device, resources) + t)
            == Ok(Tail(Writable(resources.location), Writable(resources.exchange),
                       Some(Writable(resources.deviceOwner))))
  {
    var l, d := [Writable(resources.location), Writable(resources.exchange)], [Writable(resources.deviceOwner)];
    assert Writables(resources.owners) == [];
    assert CloseAccounts(device, resources) + t == l + (d + t);
    TakeAppended(l, d + t);
  }

  /** An atomic delete is read back exactly when it names at least one resource owner. With none,
      its count is that of the legacy layout and the location is taken for the payer. */
  lemma DeleteDeviceRoundTrip(payer: Pubkey, device: Pubkey, contributor: Pubkey,
                              resources: DeleteResources, mode: Mode)
    requires resources.Atomic? ==> |resources.owners| <= U8_MAX
    ensures
      var args := DeleteArgs(if resources.Legacy? then 0 else |resources.owners|);
      var parsed := ProcessDeleteDevice(args,
                                        WithMode(DeleteDeviceList(payer, device, contributor, resources), payer, mode));
      var roles := Ok(DeleteRoles(Writable(device), Writable(contributor), Writable(GlobalStatePda),
                                  CloseRolesOf(device, resources), TailOf(payer, mode)));
      && (parsed == roles <==> resources.Legacy? || resources.owners != [])
      && (parsed != roles ==>
            parsed.Ok?
            && parsed.value.tail
               == Tail(Writable(resources.location), Writable(resources.exchange),
                       Some(Writable(resources.deviceOwner))))
  {
    var own, t := CloseAccounts(device, resources), TrailingIn(payer, mode);
    ReadsHead(DeviceHead(device, contributor), own, payer, mode);
    if resources.Legacy? {
      assert own + t == t;
      ReadsTail(payer, mode);
    } else if resources.owners == [] {
      EmptyCloseIsTail(device, resources, t);
    } else {
      ReadsClose(device, resources, t);
      ReadsTail(payer, mode);
    }
  }

  lemma ReadsPrefixes(device: Pubkey, oldCount: nat, dzPrefixes: Option<seq<Network>>)
    ensures
      var m := Covered(oldCount, dzPrefixes);
      ReadPrefixes(PrefixAccounts(device, oldCount, dzPrefixes), device, if dzPrefixes.None? then 0 else m + 1) ==
      if dzPrefixes.None? then Ok(PrefixesAnd(None, []))
      else if m == 0 then Err(Panicked)
      else Ok(PrefixesAnd(Some(Writable(GlobalConfigPda)), Writables(DeviceResources(device, m))))
  {
    var m := Covered(oldCount, dzPrefixes);
    if dzPrefixes.Some? {
      var r := Writables(DeviceResources(device, m));
      TakeAppended([Writable(GlobalConfigPda)], r);
      assert r + [] == r;
      TakeAppended(r, []);
      assert AreResourcesOf(device, r);
    }
  }

  /** An update that leaves the prefixes alone is always read back. One that changes them is read
      back exactly when it covers at least one prefix and the count it was built with covers as much
      as the count recorded onchain. */
  lemma UpdateDeviceRoundTrip(
    payer: Pubkey, device: Pubkey, contributor: Pubkey, oldLocation: Pubkey, newLocation: Pubkey, oldCount: nat,
    args: UpdateArgs, onchainCount: nat, mode: Mode)
    ensures
      var m := Covered(oldCount, args.dzPrefixes);
      var built := args.(resourceCount := if args.dzPrefixes.None? then 0 else m + 1);
      var parsed := ProcessUpdateDevice(
        built, WithMode(UpdateDeviceList(payer, device, contributor, oldLocation, newLocation, oldCount,
                                         args.dzPrefixes), payer, mode), onchainCount);
      if args.dzPrefixes.None? || (m >= 1 && m == Covered(onchainCount, args.dzPrefixes)) then
        parsed == Ok(UpdateRoles(
          Writable(device), Writable(contributor), Some((Writable(oldLocation), Writable(newLocation))),
          Writable(GlobalStatePda),
          if args.dzPrefixes.None? then None else Some(Writable(GlobalConfigPda)),
          if args.dzPrefixes.None? then [] else Writables(DeviceResources(device, m)), TailOf(payer, mode)))
      else parsed == Err(Panicked)
  {
    var head, own := UpdateHead(device, contributor, oldLocation, newLocation),
                     PrefixAccounts(device, oldCount, args.dzPrefixes);
    TrailingSplits(head + own, payer, mode);
    SplitsTail(head + own, payer, mode);
    TakeAppended(head, own);
    ReadsPrefixes(device, oldCount, args.dzPrefixes);
  }

  lemma CreateDeviceInterfaceRoundTrip(
    payer: Pubkey, device: Pubkey, contributor: Pubkey, names: seq<string>, args: CreateInterfaceArgs, mode: Mode)
    requires args.isVpnv4 ==> |names| <= U8_MAX
    ensures ProcessCreateDeviceInterface(args.(useOnchainAllocation := true,
                                               topologyCount := if args.isVpnv4 then |names| else 0),
                                         WithMode(CreateInterfaceList(payer, device, contributor, names, args.isVpnv4),
                                                  payer, mode))
            == Ok(CreateInterfaceRoles(
                    Writable(device), Writable(contributor), Writable(GlobalStatePda),
                    Writable(ResourcePda(DeviceTunnelBlock)), Writable(ResourcePda(SegmentRoutingIds)),
                    if args.isVpnv4 then Readonlys(Topologies(names)) else [], TailOf(payer, mode)))
  {
    var own := if args.isVpnv4 then Readonlys(Topologies(names)) else [];
    ReadsHead(InterfaceHead(device, contributor), own, payer, mode);
    TakeAppended(own, TrailingIn(payer, mode));
    ReadsTail(payer, mode);
  }

  /** Leaving the topologies alone, clearing them and setting them are told apart by the flag; the
      accounts are read back in all three cases. */
  lemma UpdateDeviceInterfaceRoundTrip(
    payer: Pubkey, device: Pubkey, contributor: Pubkey, names: Option<seq<string>>, args: UpdateInterfaceArgs,
    mode: Mode)
    requires names.Some? ==> |names.value| <= U8_MAX
    ensures ProcessUpdateDeviceInterface(args.(updateTopologies := names.Some?,
                                               topologyCount := if names.Some? then |names.value| else 0),
                                         WithMode(UpdateInterfaceList(payer, device, contributor, args.nodeSegmentIdx,
                                                                      names), payer, mode))
            == Ok(UpdateInterfaceRoles(
                    Writable(device), Writable(contributor), Writable(GlobalStatePda),
                    if args.nodeSegmentIdx.Some? || names.Some? then Some(Writable(ResourcePda(SegmentRoutingIds)))
                    else None,
                    if names.Some? then Readonlys(Topologies(names.value)) else [], TailOf(payer, mode)))
  {
    var own := SegmentAccounts(args.nodeSegmentIdx, names);
    ReadsHead(DeviceHead(device, contributor), own, payer, mode);
    SplitsTail(own, payer, mode);
    SegmentAccountsSplit(args.nodeSegmentIdx, names);
  }

  lemma SegmentAccountsSplit(nodeSegmentIdx: Option<U16>, names: Option<seq<string>>)
    ensures
      var own := SegmentAccounts(nodeSegmentIdx, names);
      if nodeSegmentIdx.None? && names.None? then own == []
      else own != [] && own[0] == Writable(ResourcePda(SegmentRoutingIds))
           && own[1..] == if names.Some? then Readonlys(Topologies(names.value)) else []
  {
  }
}
