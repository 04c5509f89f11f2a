/** What the onchain processors do with account lists and arguments the builders never send: other
    clients may. */
module ProcessorChecks {
  import opened Basics
  import opened AccountLists
  import opened Layouts
  import U = UserInstructions
  import D = DeviceInstructions
  import L = LinkInstructions

  // --- users: the publisher block may be left out ---

  function PoolsWithoutPublishers(device: Pubkey, n: nat): seq<Meta> {
    [Rw(ResourcePda(UserTunnelBlock)), Rw(ResourcePda(TunnelIds(device, 0)))] + Blocks(device, n)
  }

  /** The resources read when the publisher block is not declared. */
  function ResourcesWithoutPublishers(device: Pubkey, n: nat): U.UserResources {
    U.UserResources(Rw(ResourcePda(UserTunnelBlock)), None, Rw(ResourcePda(TunnelIds(device, 0))), Blocks(device, n))
  }

  lemma ReadsWithoutPublishers(head: seq<Meta>, device: Pubkey, n: nat, rest: seq<Meta>)
    ensures U.ReadHead(head + (PoolsWithoutPublishers(device, n) + rest), |head|, false, n)
            == Ok(U.HeadAnd(head, ResourcesWithoutPublishers(device, n), rest))
  {
    var a, b, p := Rw(ResourcePda(UserTunnelBlock)), Rw(ResourcePda(TunnelIds(device, 0))), Blocks(device, n);
    TakeAppended(head, PoolsWithoutPublishers(device, n) + rest);
    assert PoolsWithoutPublishers(device, n) + rest == [a] + ([b] + (p + rest));
    TakeAppended([a], [b] + (p + rest));
    assert [] + ([b] + (p + rest)) == [b] + (p + rest);
    TakeAppended([], [b] + (p + rest));
    TakeAppended([b], p + rest);
    TakeAppended(p, rest);
  }

  /** A ban that declares no publisher block is read without one. */
  lemma BanWithoutPublisherBlock(user: Pubkey, device: Pubkey, payer: Pubkey, n: U8)
    requires n > 0
    ensures
      var ban := U.ProcessRequestBanUser(
        U.ReleaseArgs(n, 0), [Rw(user), Rw(GlobalStatePda)] + (PoolsWithoutPublishers(device, n) + Closing(payer)));
      ban.Ok? && ban.value.user == Rw(user) && ban.value.resources == ResourcesWithoutPublishers(device, n)
  {
    ReadsWithoutPublishers([Rw(user), Rw(GlobalStatePda)], device, n, Closing(payer));
  }

  lemma FinishesWithoutTenant(head: seq<Meta>, resources: U.UserResources, owner: Pubkey, payer: Pubkey)
    requires |head| == 4
    ensures U.FinishDeleteUser(head, resources, [Rw(owner)] + Closing(payer), false)
            == Ok(U.DeleteRoles(head[0], head[1], head[2], head[3], resources, None, Rw(owner),
                                TailOf(payer, Deferred)))
  {
    TakeAppended([Rw(owner)], Closing(payer));
    ReadsTail(payer, Deferred);
    assert Closing(payer) == TrailingIn(payer, Deferred);
  }

  /** So is a deletion of a user without tenant. */
  lemma DeleteWithoutPublisherBlock(user: Pubkey, accesspass: Pubkey, device: Pubkey, owner: Pubkey, payer: Pubkey,
                                    n: U8)
    requires n > 0
    ensures
      var delete := U.ProcessDeleteUser(
        U.ReleaseArgs(n, 0), [Rw(user), Rw(accesspass), Rw(GlobalStatePda), Rw(device)]
                             + (PoolsWithoutPublishers(device, n) + ([Rw(owner)] + Closing(payer))), System);
      delete.Ok? && delete.value.owner == Rw(owner) && delete.value.resources == ResourcesWithoutPublishers(device, n)
  {
    ReadsWithoutPublishers([Rw(user), Rw(accesspass), Rw(GlobalStatePda), Rw(device)], device, n,
                           [Rw(owner)] + Closing(payer));
    FinishesWithoutTenant([Rw(user), Rw(accesspass), Rw(GlobalStatePda), Rw(device)],
                          ResourcesWithoutPublishers(device, n), owner, payer);
  }

  lemma FinishesWithoutChange(head: seq<Meta>, resources: U.UserResources, payer: Pubkey)
    requires |head| == 2
    ensures U.FinishUpdateUser(head, resources, Closing(payer))
            == Ok(U.UpdateRoles(head[0], head[1], resources, None, None, TailOf(payer, Deferred)))
  {
    U.FinishesUpdateUser(head, resources, [], payer, Deferred);
    assert [] + TrailingIn(payer, Deferred) == Closing(payer);
  }

  /** So is an update without tenant change. */
  lemma UpdateWithoutPublisherBlock(user: Pubkey, device: Pubkey, payer: Pubkey, n: U8, args: U.UpdateArgs)
    requires n > 0
    ensures
      var update := U.ProcessUpdateUser(
        args.(dzPrefixCount := n, multicastPublisherCount := 0),
        [Rw(user), Rw(GlobalStatePda)] + (PoolsWithoutPublishers(device, n) + Closing(payer)));
      update.Ok? && update.value.user == Rw(user) && update.value.resources == ResourcesWithoutPublishers(device, n)
  {
    ReadsWithoutPublishers([Rw(user), Rw(GlobalStatePda)], device, n, Closing(payer));
    FinishesWithoutChange([Rw(user), Rw(GlobalStatePda)], ResourcesWithoutPublishers(device, n), payer);
  }

  // --- users: accounts in the place of the optional ones ---

  /** An update of a user takes no accounts or two in the place of the tenants, and is refused with any
      other number. */
  lemma UpdateUserTakesAPair(user: Pubkey, device: Pubkey, payer: Pubkey, n: U8, extra: seq<Meta>, args: U.UpdateArgs)
    requires n > 0
    ensures
      var update := U.ProcessUpdateUser(
        args.(dzPrefixCount := n, multicastPublisherCount := 1),
        [Rw(user), Rw(GlobalStatePda)] + (UserPools(device, n) + extra) + Closing(payer));
      && (update.Ok? <==> |extra| == 0 || |extra| == 2)
      && (update.Err? ==> update.error == InvalidArgument)
  {
    var head := [Rw(user), Rw(GlobalStatePda)];
    BlocksAre(device, n);
    U.ReadsHead(head, device, n, extra, payer, Deferred);
    assert Closing(payer) == Trailing(payer);
    FinishTakesAPair(head, U.ResourcesOf(device, n), extra, payer);
  }

  lemma FinishTakesAPair(head: seq<Meta>, resources: U.UserResources, extra: seq<Meta>, payer: Pubkey)
    requires |head| == 2
    ensures
      var update := U.FinishUpdateUser(head, resources, extra + TrailingIn(payer, Deferred));
      && (update.Ok? <==> |extra| == 0 || |extra| == 2)
      && (update.Err? ==> update.error == InvalidArgument)
  {
    SplitsTail(extra, payer, Deferred);
  }

  /** A creation with groups takes the first account in the place of the feed for the feed. */
  lemma FirstExtraIsFeed(user: Pubkey, device: Pubkey, mgroup: Pubkey, accesspass: Pubkey, payer: Pubkey, n: U8,
                         extra: seq<Meta>, args: U.CreateSubscribeArgs)
    requires n > 0
    ensures
      var create := U.ProcessCreateSubscribeUser(
        args.(dzPrefixCount := n),
        [Rw(user), Rw(device), Rw(mgroup), Rw(accesspass), Rw(GlobalStatePda)] + (UserPools(device, n) + extra)
        + Closing(payer));
      create.Ok? && create.value.feed == if extra == [] then None else Some(extra[0])
  {
    var head := [Rw(user), Rw(device), Rw(mgroup), Rw(accesspass), Rw(GlobalStatePda)];
    BlocksAre(device, n);
    U.ReadsHead(head, device, n, extra, payer, Deferred);
    assert Closing(payer) == Trailing(payer);
    FinishTakesFeed(head, U.ResourcesOf(device, n), extra, payer);
  }

  lemma FinishTakesFeed(head: seq<Meta>, resources: U.UserResources, extra: seq<Meta>, payer: Pubkey)
    requires |head| == 5
    ensures
      var create := U.FinishCreateSubscribeUser(head, resources, extra + TrailingIn(payer, Deferred));
      create.Ok? && create.value.feed == if extra == [] then None else Some(extra[0])
  {
    SplitsTail(extra, payer, Deferred);
  }

  // --- devices and links: what is refused ---

  /** A device is created only with one resource per prefix and one more. */
  lemma CreateDeviceNeedsCount(args: D.CreateArgs, accounts: seq<Meta>)
    requires args.resourceCount != 1 + |args.dzPrefixes|
    ensures D.ProcessCreateDevice(args, accounts).Err?
  {
  }

  /** An update of a device may leave the locations alone: then they are not sent. */
  lemma LocationsAreOptional(args: D.UpdateArgs, device: Pubkey, contributor: Pubkey, payer: Pubkey, onchainCount: nat)
    requires args.dzPrefixes.None? && args.resourceCount == 0
    ensures
      var parsed := D.ProcessUpdateDevice(
        args, [Rw(device), Rw(contributor), Rw(GlobalStatePda)] + Closing(payer), onchainCount);
      && parsed.Ok? && parsed.value.device == Rw(device) && parsed.value.contributor == Rw(contributor)
      && parsed.value.locations == None && parsed.value.globalstate == Rw(GlobalStatePda)
  {
    var head := [Rw(device), Rw(contributor), Rw(GlobalStatePda)];
    SplitsTail(head, payer, Deferred);
    assert head + TrailingIn(payer, Deferred) == head + Closing(payer);
  }

  /** The number of accounts of an update has to be that of one with or without locations. */
  lemma UpdateDeviceNeedsLength(args: D.UpdateArgs, leading: seq<Meta>, payer: Pubkey, onchainCount: nat)
    requires
      var plain := 3 + args.resourceCount + if args.resourceCount > 0 then 1 else 0;
      |leading| != plain && |leading| != plain + 2
    ensures D.ProcessUpdateDevice(args, leading + Closing(payer), onchainCount) == Err(InvalidArgument)
  {
    SplitsTail(leading, payer, Deferred);
    assert TrailingIn(payer, Deferred) == Closing(payer);
  }

  /** The resource accounts of an update are checked one by one against the addresses of the device's
      own, in order. */
  lemma ForeignResourcePanics(rest: seq<Meta>, device: Pubkey, count: nat, i: nat)
    requires count >= 2 && |rest| >= 1 + count && i < count
    requires rest[1 + i].key != ResourcePda(if i == 0 then TunnelIds(device, 0) else DzPrefixBlock(device, i - 1))
    ensures D.ReadPrefixes(rest, device, count) == Err(Panicked)
  {
    var taken := rest[1..][..count];
    assert taken[i] == rest[1 + i];
    assert !D.AreResourcesOf(device, taken);
  }

  /** Interfaces and links are created, moved and deleted with onchain allocation only, and a link takes
      at most eight topologies. */
  lemma AllocationIsOnchain(interface: D.CreateInterfaceArgs, update: L.UpdateArgs, delete: L.DeleteArgs,
                            accounts: seq<Meta>)
    ensures !interface.useOnchainAllocation ==> D.ProcessCreateDeviceInterface(interface, accounts).Err?
    ensures !delete.useOnchainDeallocation ==> L.ProcessDeleteLink(delete, accounts).Err?
    ensures (update.tunnelId.Some? || update.tunnelNet.Some?) && !update.useOnchainAllocation ==>
              L.ProcessUpdateLink(update, accounts).Err?
    ensures update.linkTopologies.Some? && |update.linkTopologies.value| > 8 ==>
              L.ProcessUpdateLink(update, accounts).Err?
  {
  }
}
