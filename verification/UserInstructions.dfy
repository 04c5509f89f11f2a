/** The user instructions: the builders that lay out their accounts, the onchain processors that
    read them, and the proofs that the second undoes the first. */
module UserInstructions {
  import opened Basics
  import opened AccountLists

  datatype CreateSubscribeArgs = CreateSubscribeArgs(
    userType: UserType, clientIp: Ip, publisher: bool, subscriber: bool, tunnelEndpoint: Ip, dzPrefixCount: U8,
    owner: Pubkey)

  datatype CreateArgs = CreateArgs(userType: UserType, clientIp: Ip, tunnelEndpoint: Ip, dzPrefixCount: U8)

  datatype UpdateArgs = UpdateArgs(tenantPk: Option<Pubkey>, dzPrefixCount: U8, multicastPublisherCount: U8)

  /** Arguments of deleting and of banning a user. */
  datatype ReleaseArgs = ReleaseArgs(dzPrefixCount: U8, multicastPublisherCount: U8)

  // --- layouts ---

  /** The resource accounts a user's tunnel and addresses come from. */
  function ResourceMetas(device: Pubkey, n: nat): seq<Meta> {
    [Writable(ResourcePda(UserTunnelBlock)), Writable(ResourcePda(MulticastPublisherBlock)),
     Writable(ResourcePda(TunnelIds(device, 0)))]
    + Writables(PrefixBlocks(device, n))
  }

  function CreateSubscribeHead(userType: UserType, clientIp: Ip, device: Pubkey, mgroup: Pubkey,
                               accesspass: Pubkey): seq<Meta> {
    [Writable(UserPda(clientIp, userType)), Writable(device), Writable(mgroup), Writable(accesspass),
     Writable(GlobalStatePda)]
  }

  function CreateHead(userType: UserType, clientIp: Ip, device: Pubkey, accesspass: Pubkey): seq<Meta> {
    [Writable(UserPda(clientIp, userType)), Writable(device), Writable(accesspass), Writable(GlobalStatePda)]
  }

  function UserHead(user: Pubkey): seq<Meta> {
    [Writable(user), Writable(GlobalStatePda)]
  }

  function DeleteHead(user: Pubkey, accesspass: Pubkey, device: Pubkey): seq<Meta> {
    [Writable(user), Writable(accesspass), Writable(GlobalStatePda), Writable(device)]
  }

  function OptionalReadonly(key: Option<Pubkey>): seq<Meta> {
    if key.Some? then [Readonly(key.value)] else []
  }

  /** A tenant account is sent only for a tenant other than the default key. */
  function TenantAccount(tenant: Option<Pubkey>): Option<Meta> {
    if tenant.Some? && tenant.value != DEFAULT_PUBKEY then Some(Writable(tenant.value)) else None
  }

  function Optional(account: Option<Meta>): seq<Meta> {
    if account.Some? then [account.value] else []
  }

  /** The tenant pair of an update: the old one is sent read-only when it is the default key. */
  function TenantPair(oldTenant: Pubkey, newTenant: Option<Pubkey>): seq<Meta> {
    if newTenant.None? then []
    else [if oldTenant == DEFAULT_PUBKEY then Readonly(oldTenant) else Writable(oldTenant), Writable(newTenant.value)]
  }

  // The whole lists, trailing accounts included.

  function CreateSubscribeUserList(payer: Pubkey, device: Pubkey, mgroup: Pubkey, accesspass: Pubkey, n: nat,
                                   feed: Option<Pubkey>, args: CreateSubscribeArgs): seq<Meta> {
    CreateSubscribeHead(args.userType, args.clientIp, device, mgroup, accesspass)
    + (ResourceMetas(device, n) + OptionalReadonly(feed)) + Trailing(payer)
  }

  function CreateUserList(payer: Pubkey, device: Pubkey, accesspass: Pubkey, n: nat, tenant: Option<Pubkey>,
                          args: CreateArgs): seq<Meta> {
    CreateHead(args.userType, args.clientIp, device, accesspass)
    + (ResourceMetas(device, n) + Optional(TenantAccount(tenant))) + Trailing(payer)
  }

  function UpdateUserList(payer: Pubkey, user: Pubkey, device: Pubkey, n: nat, oldTenant: Pubkey,
                          args: UpdateArgs): seq<Meta> {
    UserHead(user) + (ResourceMetas(device, n) + TenantPair(oldTenant, args.tenantPk)) + Trailing(payer)
  }

  function DeleteUserList(payer: Pubkey, user: Pubkey, accesspass: Pubkey, device: Pubkey, n: nat,
                          tenant: Option<Pubkey>, owner: Pubkey): seq<Meta> {
    DeleteHead(user, accesspass, device)
    + (ResourceMetas(device, n) + (Optional(TenantAccount(tenant)) + [Writable(owner)])) + Trailing(payer)
  }

  function RequestBanUserList(payer: Pubkey, user: Pubkey, device: Pubkey, n: nat): seq<Meta> {
    UserHead(user) + ResourceMetas(device, n) + Trailing(payer)
  }

  // --- builders ---

  method PushUserResources(accounts: seq<Meta>, device: Pubkey, n: nat) returns (all: seq<Meta>)
    ensures all == accounts + ResourceMetas(device, n)
  {
    var shared := [Writable(ResourcePda(UserTunnelBlock)), Writable(ResourcePda(MulticastPublisherBlock)),
                   Writable(ResourcePda(TunnelIds(device, 0)))];
    all := PushPrefixBlocks(accounts + shared, device, n);
    Regroup(accounts, shared, Writables(PrefixBlocks(device, n)));
  }

  method CreateSubscribeUser(payer: Pubkey, device: Pubkey, mgroup: Pubkey, accesspass: Pubkey, dzPrefixCount: U8,
                             feed: Option<Pubkey>, args: CreateSubscribeArgs)
    returns (ix: Instruction<CreateSubscribeArgs>)
    ensures ix.args == args.(dzPrefixCount := dzPrefixCount)
    ensures ix.accounts == CreateSubscribeUserList(payer, device, mgroup, accesspass, dzPrefixCount, feed, args)
  {
    var accounts := CreateSubscribeHead(args.userType, args.clientIp, device, mgroup, accesspass);
    accounts := PushUserResources(accounts, device, dzPrefixCount);
    if feed.Some? {
      accounts := accounts + [Readonly(feed.value)];
    }
    Regroup(CreateSubscribeHead(args.userType, args.clientIp, device, mgroup, accesspass),
            ResourceMetas(device, dzPrefixCount), OptionalReadonly(feed));
    ix := Build(args.(dzPrefixCount := dzPrefixCount), accounts, payer);
  }

  method CreateUser(payer: Pubkey, device: Pubkey, accesspass: Pubkey, dzPrefixCount: U8, tenant: Option<Pubkey>,
                    args: CreateArgs)
    returns (ix: Instruction<CreateArgs>)
    ensures ix.args == args.(dzPrefixCount := dzPrefixCount)
    ensures ix.accounts == CreateUserList(payer, device, accesspass, dzPrefixCount, tenant, args)
  {
    var accounts := CreateHead(args.userType, args.clientIp, device, accesspass);
    accounts := PushUserResources(accounts, device, dzPrefixCount);
    if tenant.Some? {
      if tenant.value != DEFAULT_PUBKEY {
        accounts := accounts + [Writable(tenant.value)];
      }
    }
    Regroup(CreateHead(args.userType, args.clientIp, device, accesspass), ResourceMetas(device, dzPrefixCount),
            Optional(TenantAccount(tenant)));
    ix := Build(args.(dzPrefixCount := dzPrefixCount), accounts, payer);
  }

  method UpdateUser(payer: Pubkey, user: Pubkey, device: Pubkey, dzPrefixCount: U8, oldTenant: Pubkey, args: UpdateArgs)
    returns (ix: Instruction<UpdateArgs>)
    ensures ix.args == args.(dzPrefixCount := dzPrefixCount, multicastPublisherCount := 1)
    ensures ix.accounts == UpdateUserList(payer, user, device, dzPrefixCount, oldTenant, args)
  {
    var accounts := UserHead(user);
    accounts := PushUserResources(accounts, device, dzPrefixCount);
    if args.tenantPk.Some? {
      if oldTenant == DEFAULT_PUBKEY {
        accounts := accounts + [Readonly(oldTenant)];
      } else {
        accounts := accounts + [Writable(oldTenant)];
      }
      accounts := accounts + [Writable(args.tenantPk.value)];
    }
    Regroup(UserHead(user), ResourceMetas(device, dzPrefixCount), TenantPair(oldTenant, args.tenantPk));
    ix := Build(args.(dzPrefixCount := dzPrefixCount, multicastPublisherCount := 1), accounts, payer);
  }

  method DeleteUser(payer: Pubkey, user: Pubkey, accesspass: Pubkey, device: Pubkey, dzPrefixCount: U8,
                    tenant: Option<Pubkey>, owner: Pubkey)
    returns (ix: Instruction<ReleaseArgs>)
    ensures ix.args == ReleaseArgs(dzPrefixCount, 1)
    ensures ix.accounts == DeleteUserList(payer, user, accesspass, device, dzPrefixCount, tenant, owner)
  {
    var accounts := DeleteHead(user, accesspass, device);
    accounts := PushUserResources(accounts, device, dzPrefixCount);
    if tenant.Some? {
      if tenant.value != DEFAULT_PUBKEY {
        accounts := accounts + [Writable(tenant.value)];
      }
    }
    accounts := accounts + [Writable(owner)];
    Regroup(DeleteHead(user, accesspass, device), ResourceMetas(device, dzPrefixCount),
            Optional(TenantAccount(tenant)));
    Regroup(DeleteHead(user, accesspass, device),
            ResourceMetas(device, dzPrefixCount) + Optional(TenantAccount(tenant)), [Writable(owner)]);
    Regroup(ResourceMetas(device, dzPrefixCount), Optional(TenantAccount(tenant)), [Writable(owner)]);
    ix := Build(ReleaseArgs(dzPrefixCount, 1), accounts, payer);
  }

  method RequestBanUser(payer: Pubkey, user: Pubkey, device: Pubkey, dzPrefixCount: U8)
    returns (ix: Instruction<ReleaseArgs>)
    ensures ix.args == ReleaseArgs(dzPrefixCount, 1)
    ensures ix.accounts == RequestBanUserList(payer, user, device, dzPrefixCount)
  {
    var accounts := UserHead(user);
    accounts := PushUserResources(accounts, device, dzPrefixCount);
    ix := Build(ReleaseArgs(dzPrefixCount, 1), accounts, payer);
  }

  // --- processors ---

  datatype UserResources = UserResources(userTunnelBlock: Meta, publisherBlock: Option<Meta>, deviceTunnelIds: Meta,
                                         dzPrefixBlocks: seq<Meta>)

  datatype ResourcesAnd = ResourcesAnd(resources: UserResources, rest: seq<Meta>)

  /** Read the resource accounts; the publisher block only if it is declared. */
  function ReadResources(rest: seq<Meta>, publisherBlock: bool, n: nat): Parse<ResourcesAnd> {
    var block :- Take(rest, 1);
    var publisher :- Take(block.rest, if publisherBlock then 1 else 0);
    var ids :- Take(publisher.rest, 1);
    var prefixes :- Take(ids.rest, n);
    Ok(ResourcesAnd(
         UserResources(block.taken[0], if publisherBlock then Some(publisher.taken[0]) else None, ids.taken[0],
                       prefixes.taken),
         prefixes.rest))
  }

  datatype HeadAnd = HeadAnd(head: seq<Meta>, resources: UserResources, rest: seq<Meta>)

  /** Read the first `k` accounts, then the resource accounts. */
  function ReadHead(accounts: seq<Meta>, k: nat, publisherBlock: bool, n: nat): (r: Parse<HeadAnd>)
    ensures r.Ok? ==> |r.value.head| == k
  {
    var h :- Take(accounts, k);
    var r :- ReadResources(h.rest, publisherBlock, n);
    Ok(HeadAnd(h.taken, r.resources, r.rest))
  }

  datatype OptionalAnd = OptionalAnd(account: Option<Meta>, rest: seq<Meta>)

  function ReadOptional(rest: seq<Meta>, present: bool): (r: Parse<OptionalAnd>)
    ensures r.Ok? ==> r.value.account.Some? == present
  {
    if !present then Ok(OptionalAnd(None, rest))
    else
      var t :- Take(rest, 1);
      Ok(OptionalAnd(Some(t.taken[0]), t.rest))
  }

  datatype CreateSubscribeRoles = CreateSubscribeRoles(
    user: Meta, device: Meta, mgroup: Meta, accesspass: Meta, globalstate: Meta, resources: UserResources,
    feed: Option<Meta>, tail: Tail)

  function ProcessCreateSubscribeUser(args: CreateSubscribeArgs, accounts: seq<Meta>): Parse<CreateSubscribeRoles> {
    if args.dzPrefixCount == 0 then Err(InvalidArgument)
    else
      var h :- ReadHead(accounts, 5, true, args.dzPrefixCount);
      FinishCreateSubscribeUser(h.head, h.resources, h.rest)
  }

  function FinishCreateSubscribeUser(head: seq<Meta>, resources: UserResources,
                                     rest: seq<Meta>): Parse<CreateSubscribeRoles>
    requires |head| == 5
  {
    var s :- SplitTrailingPermission(rest);
    Ok(CreateSubscribeRoles(head[0], head[1], head[2], head[3], head[4], resources,
                            if s.leading == [] then None else Some(s.leading[0]), s.tail))
  }

  datatype CreateRoles = CreateRoles(
    user: Meta, device: Meta, accesspass: Meta, globalstate: Meta, resources: UserResources, tenant: Option<Meta>,
    payer: Meta, system: Meta)

  /** The tenant is recognised by the length of the list. */
  function ProcessCreateUser(args: CreateArgs, accounts: seq<Meta>): Parse<CreateRoles> {
    if args.dzPrefixCount == 0 then Err(InvalidArgument)
    else
      var h :- ReadHead(accounts, 4, true, args.dzPrefixCount);
      FinishCreateUser(h.head, h.resources, h.rest, |accounts| >= 7 + (3 + args.dzPrefixCount))
  }

  function FinishCreateUser(head: seq<Meta>, resources: UserResources, rest: seq<Meta>,
                            hasTenant: bool): Parse<CreateRoles>
    requires |head| == 4
  {
    var t :- ReadOptional(rest, hasTenant);
    var p :- Take(t.rest, 2);
    Ok(CreateRoles(head[0], head[1], head[2], head[3], resources, t.account, p.taken[0], p.taken[1]))
  }

  datatype UpdateRoles = UpdateRoles(
    user: Meta, globalstate: Meta, resources: UserResources, oldTenant: Option<Meta>, newTenant: Option<Meta>,
    tail: Tail)

  function ProcessUpdateUser(args: UpdateArgs, accounts: seq<Meta>): Parse<UpdateRoles> {
    if args.dzPrefixCount == 0 then Err(InvalidArgument)
    else
      var h :- ReadHead(accounts, 2, args.multicastPublisherCount > 0, args.dzPrefixCount);
      FinishUpdateUser(h.head, h.resources, h.rest)
  }

  function FinishUpdateUser(head: seq<Meta>, resources: UserResources, rest: seq<Meta>): Parse<UpdateRoles>
    requires |head| == 2
  {
    var s :- SplitTrailingPermission(rest);
    if |s.leading| == 0 then Ok(UpdateRoles(head[0], head[1], resources, None, None, s.tail))
    else if |s.leading| == 2 then Ok(UpdateRoles(head[0], head[1], resources, Some(s.leading[0]), Some(s.leading[1]),
                                                 s.tail))
    else Err(InvalidArgument)
  }

  datatype DeleteRoles = DeleteRoles(
    user: Meta, accesspass: Meta, globalstate: Meta, device: Meta, resources: UserResources, tenant: Option<Meta>,
    owner: Meta, tail: Tail)

  /** `tenantPk` is the tenant recorded in the user account. */
  function ProcessDeleteUser(args: ReleaseArgs, accounts: seq<Meta>, tenantPk: Pubkey): Parse<DeleteRoles> {
    if args.dzPrefixCount == 0 then Err(InvalidArgument)
    else
      var h :- ReadHead(accounts, 4, args.multicastPublisherCount > 0, args.dzPrefixCount);
      FinishDeleteUser(h.head, h.resources, h.rest, tenantPk != DEFAULT_PUBKEY)
  }

  function FinishDeleteUser(head: seq<Meta>, resources: UserResources, rest: seq<Meta>,
                            hasTenant: bool): Parse<DeleteRoles>
    requires |head| == 4
  {
    var t :- ReadOptional(rest, hasTenant);
    var o :- Take(t.rest, 1);
    var tail :- ReadTail(o.rest);
    Ok(DeleteRoles(head[0], head[1], head[2], head[3], resources, t.account, o.taken[0], tail))
  }

  datatype BanRoles = BanRoles(user: Meta, globalstate: Meta, resources: UserResources, tail: Tail)

  function ProcessRequestBanUser(args: ReleaseArgs, accounts: seq<Meta>): Parse<BanRoles> {
    if args.dzPrefixCount == 0 then Err(InvalidArgument)
    else
      var h :- ReadHead(accounts, 2, args.multicastPublisherCount > 0, args.dzPrefixCount);
      var tail :- ReadTail(h.rest);
      Ok(BanRoles(h.head[0], h.head[1], h.resources, tail))
  }

  // The resources a processor reads, if it accepts the list.

  function SubscribeResources(args: CreateSubscribeArgs, accounts: seq<Meta>): Option<UserResources> {
    var r := ProcessCreateSubscribeUser(args, accounts);
    if r.Ok? then Some(r.value.resources) else None
  }

  function CreateResources(args: CreateArgs, accounts: seq<Meta>): Option<UserResources> {
    var r := ProcessCreateUser(args, accounts);
    if r.Ok? then Some(r.value.resources) else None
  }

  function UpdateResources(args: UpdateArgs, accounts: seq<Meta>): Option<UserResources> {
    var r := ProcessUpdateUser(args, accounts);
    if r.Ok? then Some(r.value.resources) else None
  }

  function DeleteResources(args: ReleaseArgs, accounts: seq<Meta>, tenantPk: Pubkey): Option<UserResources> {
    var r := ProcessDeleteUser(args, accounts, tenantPk);
    if r.Ok? then Some(r.value.resources) else None
  }

  function BanResources(args: ReleaseArgs, accounts: seq<Meta>): Option<UserResources> {
    var r := ProcessRequestBanUser(args, accounts);
    if r.Ok? then Some(r.value.resources) else None
  }

  // --- the processors undo the builders ---

  /** A tenant is given, and it is not the default key. */
  ghost predicate HasTenant(tenant: Option<Pubkey>) {
    tenant.Some? && tenant.value != DEFAULT_PUBKEY
  }

  /** The resources a user on `device` is served from. */
  function ResourcesOf(device: Pubkey, n: nat): UserResources {
    UserResources(Writable(ResourcePda(UserTunnelBlock)), Some(Writable(ResourcePda(MulticastPublisherBlock))),
                  Writable(ResourcePda(TunnelIds(device, 0))), Writables(PrefixBlocks(device, n)))
  }

  lemma ReadsOptional(account: Option<Meta>, rest: seq<Meta>)
    ensures ReadOptional(Optional(account) + rest, account.Some?) == Ok(OptionalAnd(account, rest))
  {
    if account.Some? {
      TakeAppended([account.value], rest);
    } else {
      assert [] + rest == rest;
    }
  }

  lemma ReadsResources(device: Pubkey, n: nat, rest: seq<Meta>)
    ensures ReadResources(ResourceMetas(device, n) + rest, true, n) == Ok(ResourcesAnd(ResourcesOf(device, n), rest))
  {
    var p := Writables(PrefixBlocks(device, n));
    var a, b, c := Writable(ResourcePda(UserTunnelBlock)), Writable(ResourcePda(MulticastPublisherBlock)),
                   Writable(ResourcePda(TunnelIds(device, 0)));
    assert ResourceMetas(device, n) + rest == [a] + ([b] + ([c] + (p + rest)));
    TakeAppended([a], [b] + ([c] + (p + rest)));
    TakeAppended([b], [c] + (p + rest));
    TakeAppended([c], p + rest);
    TakeAppended(p, rest);
  }

  /** A head, the resources and what follows: read one after the other. */
  lemma ReadsHead(head: seq<Meta>, device: Pubkey, n: nat, own: seq<Meta>, payer: Pubkey, mode: Mode)
    ensures
      var accounts := WithMode(head + (ResourceMetas(device, n) + own) + Trailing(payer), payer, mode);
      && ReadHead(accounts, |head|, true, n) == Ok(HeadAnd(head, ResourcesOf(device, n), own + TrailingIn(payer, mode)))
      && |accounts| == |head| + 3 + n + |own| + |TrailingIn(payer, mode)|
  {
    TakesHead(head, ResourceMetas(device, n), own, payer, mode);
    ReadsResources(device, n, own + TrailingIn(payer, mode));
  }

  /** With or without a feed, before and after permissions, for every prefix count but zero. */
  lemma CreateSubscribeUserRoundTrip(
    payer: Pubkey, device: Pubkey, mgroup: Pubkey, accesspass: Pubkey, n: U8, feed: Option<Pubkey>,
    args: CreateSubscribeArgs, mode: Mode)
    ensures ProcessCreateSubscribeUser(args.(dzPrefixCount := n),
                                       WithMode(CreateSubscribeUserList(payer, device, mgroup, accesspass, n, feed,
                                                                        args), payer, mode)) ==
            if n == 0 then Err(InvalidArgument)
            else Ok(CreateSubscribeRoles(
                      Writable(UserPda(args.clientIp, args.userType)), Writable(device), Writable(mgroup),
                      Writable(accesspass),
                      Writable(GlobalStatePda), ResourcesOf(device, n),
                      if feed.Some? then Some(Readonly(feed.value)) else None, TailOf(payer, mode)))
  {
    if n > 0 {
      CreateSubscribeUserReads(payer, device, mgroup, accesspass, n, feed, args, mode);
      FinishesCreateSubscribeUser(CreateSubscribeHead(args.userType, args.clientIp, device, mgroup, accesspass),
                                  ResourcesOf(device, n), feed, payer, mode);
    }
  }

  lemma CreateSubscribeUserReads(
    payer: Pubkey, device: Pubkey, mgroup: Pubkey, accesspass: Pubkey, n: U8, feed: Option<Pubkey>,
    args: CreateSubscribeArgs, mode: Mode)
    requires n > 0
    ensures
      var accounts := WithMode(CreateSubscribeUserList(payer, device, mgroup, accesspass, n, feed, args), payer, mode);
      ProcessCreateSubscribeUser(args.(dzPrefixCount := n), accounts)
      == FinishCreateSubscribeUser(CreateSubscribeHead(args.userType, args.clientIp, device, mgroup, accesspass),
                                   ResourcesOf(device, n), OptionalReadonly(feed) + TrailingIn(payer, mode))
  {
    ReadsHead(CreateSubscribeHead(args.userType, args.clientIp, device, mgroup, accesspass), device, n,
              OptionalReadonly(feed), payer, mode);
  }

  lemma FinishesCreateSubscribeUser(head: seq<Meta>, resources: UserResources, feed: Option<Pubkey>,
                                    payer: Pubkey, mode: Mode)
    requires |head| == 5
    ensures FinishCreateSubscribeUser(head, resources, OptionalReadonly(feed) + TrailingIn(payer, mode))
            == Ok(CreateSubscribeRoles(head[0], head[1], head[2], head[3], head[4], resources,
                                       if feed.Some? then Some(Readonly(feed.value)) else None, TailOf(payer, mode)))
  {
    SplitsTail(OptionalReadonly(feed), payer, mode);
  }

  /** The list built today is read back exactly; a permission account at the end would be misread
      exactly when there is no tenant, for then the payer is taken for the tenant. */
  lemma CreateUserRoundTrip(
    payer: Pubkey, device: Pubkey, accesspass: Pubkey, n: U8, tenant: Option<Pubkey>, args: CreateArgs, mode: Mode)
    ensures
      var roles := Ok(CreateRoles(Writable(UserPda(args.clientIp, args.userType)), Writable(device),
                                  Writable(accesspass),
                                  Writable(GlobalStatePda), ResourcesOf(device, n),
                                  if HasTenant(tenant) then Some(Writable(tenant.value)) else None,
                                  Meta(payer, true, true), Writable(System)));
      var parsed := ProcessCreateUser(args.(dzPrefixCount := n),
                                      WithMode(CreateUserList(payer, device, accesspass, n, tenant, args), payer,
                                               mode));
      if n == 0 then parsed == Err(InvalidArgument)
      else
        && (parsed == roles <==> mode == Deferred || HasTenant(tenant))
        && (parsed != roles ==>
              parsed.Ok? && parsed.value.tenant == Some(Meta(payer, true, true))
              && parsed.value.payer == Writable(System))
  {
    if n > 0 {
      CreateUserReads(payer, device, accesspass, n, tenant, args, mode);
      FinishesCreateUser(CreateHead(args.userType, args.clientIp, device, accesspass), ResourcesOf(device, n),
                         TenantAccount(tenant), payer, mode);
    }
  }

  lemma CreateUserReads(
    payer: Pubkey, device: Pubkey, accesspass: Pubkey, n: U8, tenant: Option<Pubkey>, args: CreateArgs, mode: Mode)
    requires n > 0
    ensures
      var accounts := WithMode(CreateUserList(payer, device, accesspass, n, tenant, args), payer, mode);
      ProcessCreateUser(args.(dzPrefixCount := n), accounts)
      == FinishCreateUser(CreateHead(args.userType, args.clientIp, device, accesspass), ResourcesOf(device, n),
                          Optional(TenantAccount(tenant)) + TrailingIn(payer, mode),
                          TenantAccount(tenant).Some? || mode == Activated)
  {
    ReadsHead(CreateHead(args.userType, args.clientIp, device, accesspass), device, n, Optional(TenantAccount(tenant)),
              payer, mode);
  }

  lemma FinishesCreateUser(head: seq<Meta>, resources: UserResources, account: Option<Meta>,
                           payer: Pubkey, mode: Mode)
    requires |head| == 4
    ensures FinishCreateUser(head, resources, Optional(account) + TrailingIn(payer, mode), account.Some?)
            == Ok(CreateRoles(head[0], head[1], head[2], head[3], resources, account, Meta(payer, true, true),
                              Writable(System)))
    ensures account.None? && mode == Activated ==>
              FinishCreateUser(head, resources, Optional(account) + TrailingIn(payer, mode), true)
              == Ok(CreateRoles(head[0], head[1], head[2], head[3], resources, Some(Meta(payer, true, true)),
                                Writable(System), Readonly(PermissionPda(payer))))
  {
    var t := TrailingIn(payer, mode);
    ReadsOptional(account, t);
    ReadsPayer(payer, mode);
    assert [] + t == t;
  }

  lemma ReadsPayer(payer: Pubkey, mode: Mode)
    ensures
      var t := TrailingIn(payer, mode);
      && Take(t, 2).Ok? && Take(t, 2).value.taken == Trailing(payer)
      && (mode == Activated ==> ReadOptional(t, true) == Ok(OptionalAnd(Some(Meta(payer, true, true)), t[1..]))
                                && t[1..] == [Writable(System), Readonly(PermissionPda(payer))])
  {
    var t := TrailingIn(payer, mode);
    assert t[..2] == Trailing(payer);
  }

  /** With or without a tenant change, before and after permissions. */
  lemma UpdateUserRoundTrip(
    payer: Pubkey, user: Pubkey, device: Pubkey, n: U8, oldTenant: Pubkey, args: UpdateArgs, mode: Mode)
    ensures ProcessUpdateUser(args.(dzPrefixCount := n, multicastPublisherCount := 1),
                              WithMode(UpdateUserList(payer, user, device, n, oldTenant, args), payer, mode)) ==
            if n == 0 then Err(InvalidArgument)
            else Ok(UpdateRoles(Writable(user), Writable(GlobalStatePda), ResourcesOf(device, n),
                                if args.tenantPk.None? then None
                                else Some(if oldTenant == DEFAULT_PUBKEY then Readonly(oldTenant)
                                          else Writable(oldTenant)),
                                if args.tenantPk.None? then None else Some(Writable(args.tenantPk.value)),
                                TailOf(payer, mode)))
  {
    if n > 0 {
      UpdateUserReads(payer, user, device, n, oldTenant, args, mode);
      FinishesUpdateUser(UserHead(user), ResourcesOf(device, n), TenantPair(oldTenant, args.tenantPk), payer, mode);
    }
  }

  lemma UpdateUserReads(
    payer: Pubkey, user: Pubkey, device: Pubkey, n: U8, oldTenant: Pubkey, args: UpdateArgs, mode: Mode)
    requires n > 0
    ensures
      var accounts := WithMode(UpdateUserList(payer, user, device, n, oldTenant, args), payer, mode);
      ProcessUpdateUser(args.(dzPrefixCount := n, multicastPublisherCount := 1), accounts)
      == FinishUpdateUser(UserHead(user), ResourcesOf(device, n),
                          TenantPair(oldTenant, args.tenantPk) + TrailingIn(payer, mode))
  {
    ReadsHead(UserHead(user), device, n, TenantPair(oldTenant, args.tenantPk), payer, mode);
  }

  lemma FinishesUpdateUser(head: seq<Meta>, resources: UserResources, pair: seq<Meta>, payer: Pubkey,
                           mode: Mode)
    requires |head| == 2 && (|pair| == 0 || |pair| == 2)
    ensures FinishUpdateUser(head, resources, pair + TrailingIn(payer, mode))
            == Ok(UpdateRoles(head[0], head[1], resources, if |pair| == 2 then Some(pair[0]) else None,
                              if |pair| == 2 then Some(pair[1]) else None, TailOf(payer, mode)))
  {
    SplitsTail(pair, payer, mode);
  }

  /** Every account gets its role exactly when a tenant account was sent if and only if the user
      account records a tenant. */
  lemma DeleteUserRoundTrip(
    payer: Pubkey, user: Pubkey, accesspass: Pubkey, device: Pubkey, n: U8, tenant: Option<Pubkey>, owner: Pubkey,
    tenantPk: Pubkey, mode: Mode)
    ensures
      var roles := Ok(DeleteRoles(Writable(user), Writable(accesspass), Writable(GlobalStatePda), Writable(device),
                                  ResourcesOf(device, n),
                                  if HasTenant(tenant) then Some(Writable(tenant.value)) else None,
                                  Writable(owner), TailOf(payer, mode)));
      var parsed := ProcessDeleteUser(ReleaseArgs(n, 1),
                                      WithMode(DeleteUserList(payer, user, accesspass, device, n, tenant, owner),
                                               payer, mode), tenantPk);
      if n == 0 then parsed == Err(InvalidArgument)
      else parsed == roles <==> (HasTenant(tenant) <==> tenantPk != DEFAULT_PUBKEY)
  {
    if n > 0 {
      DeleteUserReads(payer, user, accesspass, device, n, tenant, owner, tenantPk, mode);
      FinishesDeleteUser(DeleteHead(user, accesspass, device), ResourcesOf(device, n), TenantAccount(tenant),
                         Writable(owner), payer, mode,
                         tenantPk != DEFAULT_PUBKEY);
    }
  }

  lemma DeleteUserReads(
    payer: Pubkey, user: Pubkey, accesspass: Pubkey, device: Pubkey, n: U8, tenant: Option<Pubkey>, owner: Pubkey,
    tenantPk: Pubkey, mode: Mode)
    requires n > 0
    ensures ProcessDeleteUser(ReleaseArgs(n, 1),
                              WithMode(DeleteUserList(payer, user, accesspass, device, n, tenant, owner), payer,
                                       mode), tenantPk)
            == FinishDeleteUser(DeleteHead(user, accesspass, device), ResourcesOf(device, n),
                                Optional(TenantAccount(tenant)) + [Writable(owner)] + TrailingIn(payer, mode),
                                tenantPk != DEFAULT_PUBKEY)
  {
    ReadsHead(DeleteHead(user, accesspass, device), device, n, Optional(TenantAccount(tenant)) + [Writable(owner)],
              payer, mode);
  }

  lemma FinishesDeleteUser(
    head: seq<Meta>, resources: UserResources, account: Option<Meta>, owner: Meta, payer: Pubkey, mode: Mode,
    hasTenant: bool)
    requires |head| == 4
    ensures FinishDeleteUser(head, resources, Optional(account) + [owner] + TrailingIn(payer, mode), hasTenant)
            == Ok(DeleteRoles(head[0], head[1], head[2], head[3], resources, account, owner, TailOf(payer, mode)))
            <==> account.Some? == hasTenant
  {
    var t := TrailingIn(payer, mode);
    assert Optional(account) + [owner] + t == Optional(account) + ([owner] + t);
    ReadsOptional(account, [owner] + t);
    TakeAppended([owner], t);
    ReadsTail(payer, mode);
  }

  lemma RequestBanUserRoundTrip(payer: Pubkey, user: Pubkey, device: Pubkey, n: U8, mode: Mode)
    ensures ProcessRequestBanUser(ReleaseArgs(n, 1),
                                  WithMode(RequestBanUserList(payer, user, device, n), payer, mode)) ==
            if n == 0 then Err(InvalidArgument)
            else Ok(BanRoles(Writable(user), Writable(GlobalStatePda), ResourcesOf(device, n), TailOf(payer, mode)))
  {
    ReadsHeadOnly(UserHead(user), device, n, payer, mode);
    ReadsTail(payer, mode);
  }

  lemma ReadsHeadOnly(head: seq<Meta>, device: Pubkey, n: nat, payer: Pubkey, mode: Mode)
    ensures ReadHead(WithMode(head + ResourceMetas(device, n) + Trailing(payer), payer, mode), |head|, true, n)
            == Ok(HeadAnd(head, ResourcesOf(device, n), TrailingIn(payer, mode)))
  {
    var r, t := ResourceMetas(device, n), TrailingIn(payer, mode);
    TrailingSplits(head + r, payer, mode);
    Regroup(head, r, t);
    TakeAppended(head, r + t);
    ReadsResources(device, n, t);
  }
}
