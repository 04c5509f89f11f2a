/** The account layouts as they are documented: every builder's list, account by account, with the
    flags each is passed with. */
module Layouts {
  import opened Basics
  import opened Onchain
  import opened AccountLists
  import U = UserInstructions
  import D = DeviceInstructions
  import L = LinkInstructions

  function Rw(key: Pubkey): Meta {
    Meta(key, false, true)
  }

  function Ro(key: Pubkey): Meta {
    Meta(key, false, false)
  }

  function RwAll(keys: seq<Pubkey>): seq<Meta> {
    seq(|keys|, i requires 0 <= i < |keys| => Rw(keys[i]))
  }

  function Blocks(device: Pubkey, n: nat): seq<Meta> {
    seq(n, i requires 0 <= i < n => Rw(ResourcePda(DzPrefixBlock(device, i))))
  }

  function TopologyMetas(names: seq<string>): seq<Meta> {
    seq(|names|, i requires 0 <= i < |names| => Ro(TopologyPda(names[i])))
  }

  /** What closes every list. */
  function Closing(payer: Pubkey): seq<Meta> {
    [Meta(payer, true, true), Rw(System)]
  }

  function UserPools(device: Pubkey, n: nat): seq<Meta> {
    [Rw(ResourcePda(UserTunnelBlock)), Rw(ResourcePda(MulticastPublisherBlock)), Rw(ResourcePda(TunnelIds(device, 0)))]
    + Blocks(device, n)
  }

  function DevicePools(device: Pubkey, n: nat): seq<Meta> {
    [Rw(ResourcePda(TunnelIds(device, 0)))] + Blocks(device, n)
  }

  lemma BlocksAre(device: Pubkey, n: nat)
    ensures Writables(PrefixBlocks(device, n)) == Blocks(device, n)
    ensures Writables(DeviceResources(device, n)) == DevicePools(device, n)
    ensures U.ResourceMetas(device, n) == UserPools(device, n)
  {
  }

  // --- users ---

  lemma CreateSubscribeUserLayout(payer: Pubkey, device: Pubkey, mgroup: Pubkey, accesspass: Pubkey, n: nat,
                                  feed: Option<Pubkey>, args: U.CreateSubscribeArgs)
    ensures U.CreateSubscribeUserList(payer, device, mgroup, accesspass, n, feed, args)
            == [Rw(UserPda(args.clientIp, args.userType)), Rw(device), Rw(mgroup), Rw(accesspass), Rw(GlobalStatePda)]
               + (UserPools(device, n) + (if feed.Some? then [Ro(feed.value)] else [])) + Closing(payer)
  {
    BlocksAre(device, n);
  }

  lemma CreateUserLayout(payer: Pubkey, device: Pubkey, accesspass: Pubkey, n: nat, tenant: Option<Pubkey>,
                         args: U.CreateArgs)
    ensures U.CreateUserList(payer, device, accesspass, n, tenant, args)
            == [Rw(UserPda(args.clientIp, args.userType)), Rw(device), Rw(accesspass), Rw(GlobalStatePda)]
               + (UserPools(device, n)
                  + (if tenant.Some? && tenant.value != System then [Rw(tenant.value)] else []))
               + Closing(payer)
  {
    BlocksAre(device, n);
  }

  lemma UpdateUserLayout(payer: Pubkey, user: Pubkey, device: Pubkey, n: nat, oldTenant: Pubkey, args: U.UpdateArgs)
    ensures U.UpdateUserList(payer, user, device, n, oldTenant, args)
            == [Rw(user), Rw(GlobalStatePda)]
               + (UserPools(device, n)
                  + (if args.tenantPk.None? then []
                     else [if oldTenant == System then Ro(oldTenant) else Rw(oldTenant), Rw(args.tenantPk.value)]))
               + Closing(payer)
  {
    BlocksAre(device, n);
  }

  lemma DeleteUserLayout(payer: Pubkey, user: Pubkey, accesspass: Pubkey, device: Pubkey, n: nat,
                         tenant: Option<Pubkey>, owner: Pubkey)
    ensures U.DeleteUserList(payer, user, accesspass, device, n, tenant, owner)
            == [Rw(user), Rw(accesspass), Rw(GlobalStatePda), Rw(device)]
               + (UserPools(device, n)
                  + ((if tenant.Some? && tenant.value != System then [Rw(tenant.value)] else []) + [Rw(owner)]))
               + Closing(payer)
  {
    BlocksAre(device, n);
  }

  lemma RequestBanUserLayout(payer: Pubkey, user: Pubkey, device: Pubkey, n: nat)
    ensures U.RequestBanUserList(payer, user, device, n)
            == [Rw(user), Rw(GlobalStatePda)] + UserPools(device, n) + Closing(payer)
  {
    BlocksAre(device, n);
  }

  // --- devices ---

  lemma CreateDeviceLayout(payer: Pubkey, contributor: Pubkey, location: Pubkey, exchange: Pubkey, index: nat, n: nat)
    ensures D.CreateDeviceList(payer, contributor, location, exchange, index, n)
            == [Rw(DevicePda(index)), Rw(contributor), Rw(location), Rw(exchange), Rw(GlobalStatePda),
                Rw(GlobalConfigPda)] + DevicePools(DevicePda(index), n) + Closing(payer)
  {
    BlocksAre(DevicePda(index), n);
  }

  lemma DeleteDeviceLayout(payer: Pubkey, device: Pubkey, contributor: Pubkey, resources: D.DeleteResources)
    ensures D.DeleteDeviceList(payer, device, contributor, resources)
            == [Rw(device), Rw(contributor), Rw(GlobalStatePda)]
               + (match resources
                  case Legacy => []
                  case Atomic(location, exchange, owners, deviceOwner) =>
                    [Rw(location), Rw(exchange)]
                    + ((if owners == [] then [] else DevicePools(device, |owners| - 1))
                       + (RwAll(owners) + [Rw(deviceOwner)])))
               + Closing(payer)
  {
    if resources.Atomic? {
      assert Writables(resources.owners) == RwAll(resources.owners);
      if resources.owners != [] {
        BlocksAre(device, |resources.owners| - 1);
      }
    }
  }

  function PrefixSection(device: Pubkey, oldCount: nat, dzPrefixes: Option<seq<Network>>): seq<Meta> {
    if dzPrefixes.None? then []
    else [Rw(GlobalConfigPda)]
         + DevicePools(device, if oldCount < |dzPrefixes.value| then |dzPrefixes.value| else oldCount)
  }

  lemma PrefixSectionIs(device: Pubkey, oldCount: nat, dzPrefixes: Option<seq<Network>>)
    ensures D.PrefixAccounts(device, oldCount, dzPrefixes) == PrefixSection(device, oldCount, dzPrefixes)
  {
    if dzPrefixes.Some? {
      BlocksAre(device, if oldCount < |dzPrefixes.value| then |dzPrefixes.value| else oldCount);
    }
  }

  lemma UpdateDeviceLayout(payer: Pubkey, device: Pubkey, contributor: Pubkey, oldLocation: Pubkey,
                           newLocation: Pubkey, oldCount: nat, dzPrefixes: Option<seq<Network>>)
    ensures D.UpdateDeviceList(payer, device, contributor, oldLocation, newLocation, oldCount, dzPrefixes)
            == [Rw(device), Rw(contributor), Rw(oldLocation), Rw(newLocation), Rw(GlobalStatePda)]
               + PrefixSection(device, oldCount, dzPrefixes) + Closing(payer)
  {
    PrefixSectionIs(device, oldCount, dzPrefixes);
  }

  lemma CreateDeviceInterfaceLayout(payer: Pubkey, device: Pubkey, contributor: Pubkey, names: seq<string>,
                                    isVpnv4: bool)
    ensures D.CreateInterfaceList(payer, device, contributor, names, isVpnv4)
            == [Rw(device), Rw(contributor), Rw(GlobalStatePda), Rw(ResourcePda(DeviceTunnelBlock)),
                Rw(ResourcePda(SegmentRoutingIds))] + (if isVpnv4 then TopologyMetas(names) else []) + Closing(payer)
  {
    assert Readonlys(D.Topologies(names)) == TopologyMetas(names);
  }

  lemma UpdateDeviceInterfaceLayout(payer: Pubkey, device: Pubkey, contributor: Pubkey, nodeSegmentIdx: Option<U16>,
                                    names: Option<seq<string>>)
    ensures D.UpdateInterfaceList(payer, device, contributor, nodeSegmentIdx, names)
            == [Rw(device), Rw(contributor), Rw(GlobalStatePda)]
               + (if nodeSegmentIdx.Some? || names.Some?
                  then [Rw(ResourcePda(SegmentRoutingIds))]
                       + if names.Some? then TopologyMetas(names.value) else []
                  else [])
               + Closing(payer)
  {
    if names.Some? {
      assert Readonlys(D.Topologies(names.value)) == TopologyMetas(names.value);
    }
  }

  // --- links ---

  function LinkPreamble(link: Pubkey, authority: L.Authority, sideZ: Pubkey): seq<Meta> {
    match authority
    case LinkContributor(c) => [Rw(link), Rw(c), Rw(GlobalStatePda)]
    case SideZContributor(c) => [Rw(link), Rw(c), Rw(sideZ), Rw(GlobalStatePda)]
  }

  function LinkSections(args: L.UpdateArgs, sideA: Pubkey, sideZ: Pubkey, union: seq<Pubkey>): seq<Meta> {
    (if args.tunnelNet.Some? then [Rw(sideA), Rw(sideZ)] else [])
    + ((if args.tunnelId.Some? || args.tunnelNet.Some?
        then [Rw(ResourcePda(DeviceTunnelBlock)), Rw(ResourcePda(LinkIds))] else [])
       + (if args.linkTopologies.Some? then RwAll(union) else []))
  }

  lemma PreambleIs(link: Pubkey, authority: L.Authority, sideZ: Pubkey)
    ensures L.Preamble(link, authority, sideZ) == LinkPreamble(link, authority, sideZ)
  {
  }

  lemma SectionsAre(args: L.UpdateArgs, sideA: Pubkey, sideZ: Pubkey, union: seq<Pubkey>)
    ensures L.SideAccounts(args, sideA, sideZ) + (L.TunnelAccounts(args) + L.TopologyAccounts(args, union))
            == LinkSections(args, sideA, sideZ, union)
  {
    assert Writables(union) == RwAll(union);
  }

  lemma UpdateLinkLayout(payer: Pubkey, link: Pubkey, authority: L.Authority, sideA: Pubkey, sideZ: Pubkey,
                         union: seq<Pubkey>, args: L.UpdateArgs)
    ensures L.UpdateLinkList(payer, link, authority, sideA, sideZ, union, args)
            == LinkPreamble(link, authority, sideZ) + LinkSections(args, sideA, sideZ, union) + Closing(payer)
  {
    PreambleIs(link, authority, sideZ);
    SectionsAre(args, sideA, sideZ, union);
  }

  lemma DeleteLinkLayout(payer: Pubkey, link: Pubkey, contributor: Pubkey, sideA: Pubkey, sideZ: Pubkey,
                         owner: Pubkey, topologies: seq<Pubkey>)
    ensures L.DeleteLinkList(payer, link, contributor, sideA, sideZ, owner, topologies)
            == [Rw(link), Rw(contributor), Rw(GlobalStatePda), Rw(sideA), Rw(sideZ),
                Rw(ResourcePda(DeviceTunnelBlock)), Rw(ResourcePda(LinkIds)), Rw(owner)]
               + RwAll(topologies) + Closing(payer)
  {
    assert Writables(topologies) == RwAll(topologies);
  }
}
