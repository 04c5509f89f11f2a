/** Encoders written independently of each other name the same accounts. */
module Agreement {
  import opened Basics
  import opened AccountLists
  import opened DzLedger
  import U = UserInstructions
  import D = DeviceInstructions

  // --- the sentinel's own encoder ---

  function SentinelHead(owner: Pubkey, group: Pubkey, user: DzUser): seq<Meta> {
    U.CreateSubscribeHead(Multicast, user.clientIp, user.devicePk, group, AccessPassPda(user.clientIp, owner))
  }

  function SentinelTrailing(payer: Pubkey): seq<Meta> {
    [Meta(payer, true, true), Readonly(System)]
  }

  function SentinelList(payer: Pubkey, owner: Pubkey, group: Pubkey, user: DzUser, n: nat): seq<Meta> {
    SentinelHead(owner, group, user) + (if n > 0 then U.ResourceMetas(user.devicePk, n) else [])
    + SentinelTrailing(payer)
  }

  function SentinelArgs(owner: Pubkey, user: DzUser, tunnelEndpoint: Ip, n: U8): U.CreateSubscribeArgs {
    U.CreateSubscribeArgs(Multicast, user.clientIp, true, false, tunnelEndpoint, n, owner)
  }

  /** The last of the three instructions that give a validator a multicast publisher. */
  method SentinelCreateUser(payer: Pubkey, owner: Pubkey, group: Pubkey, user: DzUser, tunnelEndpoint: Ip, n: U8)
    returns (ix: Instruction<U.CreateSubscribeArgs>)
    ensures ix == Instruction(SentinelArgs(owner, user, tunnelEndpoint, n), SentinelList(payer, owner, group, user, n))
    ensures ix.args.publisher && !ix.args.subscriber && ix.args.userType == Multicast
    ensures ix.args.clientIp == user.clientIp && ix.args.owner == owner
    ensures ix.args.tunnelEndpoint == tunnelEndpoint && ix.args.dzPrefixCount == n
    ensures ix.accounts[..5] == [Meta(UserPda(user.clientIp, Multicast), false, true), Meta(user.devicePk, false, true),
                                 Meta(group, false, true), Meta(AccessPassPda(user.clientIp, owner), false, true),
                                 Meta(GlobalStatePda, false, true)]
  {
    var head := [
      Writable(UserPda(user.clientIp, Multicast)), Writable(user.devicePk), Writable(group),
      Writable(AccessPassPda(user.clientIp, owner)), Writable(GlobalStatePda)];
    var own := [];
    if n > 0 {
      own := own + [Writable(ResourcePda(UserTunnelBlock))];
      own := own + [Writable(ResourcePda(MulticastPublisherBlock))];
      own := own + [Writable(ResourcePda(TunnelIds(user.devicePk, 0)))];
      own := PushPrefixBlocks(own, user.devicePk, n);
      assert own == U.ResourceMetas(user.devicePk, n);
    }
    ix := Instruction(U.CreateSubscribeArgs(Multicast, user.clientIp, true, false, tunnelEndpoint, n, owner),
                      head + own + SentinelTrailing(payer));
  }

  lemma KeysAppend(a: seq<Meta>, b: seq<Meta>)
    ensures Keys(a + b) == Keys(a) + Keys(b)
  {
  }

  /** The sentinel and the shared builder name the same accounts in the same order exactly when
      there is a prefix to serve from. */
  lemma SentinelAgreesIff(payer: Pubkey, owner: Pubkey, group: Pubkey, user: DzUser,
                          tunnelEndpoint: Ip, n: U8)
    ensures
      var args := SentinelArgs(owner, user, tunnelEndpoint, n);
      Keys(SentinelList(payer, owner, group, user, n)) ==
      Keys(U.CreateSubscribeUserList(payer, user.devicePk, group, AccessPassPda(user.clientIp, owner), n, None, args))
      <==> n > 0
  {
    var head, r := SentinelHead(owner, group, user), U.ResourceMetas(user.devicePk, n);
    var own := if n > 0 then r else [];
    assert r + [] == r;
    KeysAppend(head + own, SentinelTrailing(payer));
    KeysAppend(head + r, Trailing(payer));
    assert Keys(SentinelTrailing(payer)) == Keys(Trailing(payer));
  }

  /** Flags included, only the system account differs, so the processor gives every account the
      same role in both. */
  lemma SentinelIsRead(payer: Pubkey, owner: Pubkey, group: Pubkey, user: DzUser,
                       tunnelEndpoint: Ip, n: U8)
    ensures
      var args, accesspass := SentinelArgs(owner, user, tunnelEndpoint, n), AccessPassPda(user.clientIp, owner);
      var shared := U.ProcessCreateSubscribeUser(args,
                                                 U.CreateSubscribeUserList(payer, user.devicePk, group, accesspass, n,
                                                                           None, args));
      var parsed := U.ProcessCreateSubscribeUser(args, SentinelList(payer, owner, group, user, n));
      if n == 0 then parsed == shared == Err(InvalidArgument)
      else shared.Ok? && parsed == Ok(shared.value.(tail := shared.value.tail.(system := Readonly(System))))
  {
    var args, accesspass := SentinelArgs(owner, user, tunnelEndpoint, n), AccessPassPda(user.clientIp, owner);
    U.CreateSubscribeUserRoundTrip(payer, user.devicePk, group, accesspass, n, None, args, Deferred);
    if n > 0 {
      var head, r, t := SentinelHead(owner, group, user), U.ResourceMetas(user.devicePk, n), SentinelTrailing(payer);
      Regroup(head, r, t);
      TakeAppended(head, r + t);
      U.ReadsResources(user.devicePk, n, t);
      assert t[..0] == [];
    }
  }

  // --- create, update and delete of a device, and its users ---

  /** Creating a device with `n` prefixes and closing it with `n + 1` resource owners are read as
      naming one and the same sequence of resource accounts, before and after permissions. */
  lemma ResourcesAgree(
    index: nat, createArgs: D.CreateArgs, resources: D.DeleteResources, payer: Pubkey, contributor: Pubkey,
    location: Pubkey, exchange: Pubkey, mode: Mode)
    requires resources.Atomic? && |resources.owners| == |createArgs.dzPrefixes| + 1 <= U8_MAX
    ensures
      var n, device := |createArgs.dzPrefixes|, DevicePda(index);
      var built := createArgs.(resourceCount := 1 + n);
      var made := D.ProcessCreateDevice(
        built, WithMode(D.CreateDeviceList(payer, contributor, location, exchange, index, n), payer, mode));
      var closed := D.ProcessDeleteDevice(
        D.DeleteArgs(n + 1), WithMode(D.DeleteDeviceList(payer, device, contributor, resources), payer, mode));
      && made.Ok? && closed.Ok? && closed.value.close.Some?
      && made.value.resources == closed.value.close.value.resources == Writables(DeviceResources(device, n))
  {
    D.CreateDeviceRoundTrip(payer, contributor, location, exchange, index, createArgs, mode);
    D.DeleteDeviceRoundTrip(payer, DevicePda(index), contributor, resources, mode);
  }

  /** The resource accounts a user instruction names on a device are those of the device. */
  lemma UserResourcesAreDevices(device: Pubkey, n: nat)
    ensures [U.ResourcesOf(device, n).deviceTunnelIds] + U.ResourcesOf(device, n).dzPrefixBlocks
         == Writables(DeviceResources(device, n))
  {
    D.DeviceResourceMetas(device, n);
  }

  /** Whatever is sent along (a feed, tenants), and before and after permissions, the five user
      instructions with one prefix count are read as naming the same resources. A user creation never
      carries a permission; a deletion has to send a tenant exactly if the account records one. */
  lemma UserResourcesAgree(
    device: Pubkey, n: U8, payer: Pubkey, user: Pubkey, group: Pubkey, accesspass: Pubkey, owner: Pubkey,
    feed: Option<Pubkey>, tenant: Option<Pubkey>, oldTenant: Pubkey, tenantPk: Pubkey,
    subscribeArgs: U.CreateSubscribeArgs, createArgs: U.CreateArgs, updateArgs: U.UpdateArgs, mode: Mode)
    requires n > 0
    requires U.HasTenant(tenant) <==> tenantPk != DEFAULT_PUBKEY
    ensures
      && NamesResources(U.SubscribeResources(subscribeArgs.(dzPrefixCount := n), WithMode(
           U.CreateSubscribeUserList(payer, device, group, accesspass, n, feed, subscribeArgs), payer,
           mode)), device, n)
      && NamesResources(U.CreateResources(createArgs.(dzPrefixCount := n),
           U.CreateUserList(payer, device, accesspass, n, tenant, createArgs)), device, n)
      && NamesResources(U.UpdateResources(updateArgs.(dzPrefixCount := n, multicastPublisherCount := 1), WithMode(
           U.UpdateUserList(payer, user, device, n, oldTenant, updateArgs), payer, mode)), device, n)
      && NamesResources(U.DeleteResources(U.ReleaseArgs(n, 1), WithMode(
           U.DeleteUserList(payer, user, accesspass, device, n, tenant, owner), payer, mode), tenantPk), device, n)
      && NamesResources(U.BanResources(U.ReleaseArgs(n, 1), WithMode(
           U.RequestBanUserList(payer, user, device, n), payer, mode)), device, n)
  {
    U.CreateSubscribeUserRoundTrip(payer, device, group, accesspass, n, feed, subscribeArgs, mode);
    U.CreateUserRoundTrip(payer, device, accesspass, n, tenant, createArgs, Deferred);
    U.UpdateUserRoundTrip(payer, user, device, n, oldTenant, updateArgs, mode);
    U.DeleteUserRoundTrip(payer, user, accesspass, device, n, tenant, owner, tenantPk, mode);
    U.RequestBanUserRoundTrip(payer, user, device, n, mode);
  }

  /** The instruction was read, and as naming the resources of `device`. */
  predicate NamesResources(read: Option<U.UserResources>, device: Pubkey, n: nat) {
    read == Some(U.ResourcesOf(device, n))
  }

  /** The resource accounts of a device are pairwise distinct and shared with no other device. */
  lemma ResourcesDistinct(device: Pubkey, other: Pubkey, n: nat, m: nat)
    ensures NoDuplicates(DeviceResources(device, n))
    ensures device != other ==> forall k :: k in DeviceResources(device, n) ==> k !in DeviceResources(other, m)
  {
    var a, b := DeviceResources(device, n), DeviceResources(other, m);
    forall i | 0 <= i < |a|
      ensures a[i] == ResourcePda(if i == 0 then TunnelIds(device, 0) else DzPrefixBlock(device, i - 1)) {
    }
    forall i | 0 <= i < |b|
      ensures b[i] == ResourcePda(if i == 0 then TunnelIds(other, 0) else DzPrefixBlock(other, i - 1)) {
    }
  }

  /** An update that is read at all is read as naming all resources the device had and all it
      will have. */
  lemma UpdateCoversBoth(
    payer: Pubkey, device: Pubkey, contributor: Pubkey, oldLocation: Pubkey, newLocation: Pubkey, oldCount: nat,
    args: D.UpdateArgs, mode: Mode)
    requires args.dzPrefixes.Some?
    ensures
      var newCount := |args.dzPrefixes.value|;
      var built := args.(resourceCount := D.Covered(oldCount, args.dzPrefixes) + 1);
      var parsed := D.ProcessUpdateDevice(
        built, WithMode(D.UpdateDeviceList(payer, device, contributor, oldLocation, newLocation, oldCount,
                                           args.dzPrefixes), payer, mode), oldCount);
      && (parsed.Ok? <==> oldCount > 0 || newCount > 0)
      && (parsed.Ok? ==>
            DeviceResources(device, oldCount) <= Keys(parsed.value.resources)
            && DeviceResources(device, newCount) <= Keys(parsed.value.resources))
  {
    var newCount, m := |args.dzPrefixes.value|, D.Covered(oldCount, args.dzPrefixes);
    D.UpdateDeviceRoundTrip(payer, device, contributor, oldLocation, newLocation, oldCount, args, oldCount, mode);
    assert Keys(Writables(DeviceResources(device, m))) == DeviceResources(device, m);
    ResourcesGrow(device, oldCount, m);
    ResourcesGrow(device, newCount, m);
  }

  lemma ResourcesGrow(device: Pubkey, n: nat, m: nat)
    requires n <= m
    ensures DeviceResources(device, n) <= DeviceResources(device, m)
  {
  }
}
