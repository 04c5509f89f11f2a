/** The counters and address pools the onchain program keeps while users come, change roles and
    go: a state machine over its instructions, and what every run of it preserves. */
module Accounting {
  import opened Basics
  import opened Onchain
  import opened Ledger

  datatype Account = Account(
    userType: UserType,
    clientIp: Ip,
    devicePk: Pubkey,
    dzIp: Ip,
    createdAsPublisher: bool,
    banned: bool,
    publishers: seq<Pubkey>,
    subscribers: seq<Pubkey>)
  {
    function Kind(): Kind {
      if userType == Multicast then if createdAsPublisher then Publisher else Subscriber else Unicast
    }

    /** The account was given an address of its own. */
    predicate HasOwnAddress() {
      dzIp != UNSPECIFIED && dzIp != clientIp
    }
  }

  /** What a user counts as on its device. */
  datatype Kind = Unicast | Publisher | Subscriber

  const U32_MAX := 0xFFFF_FFFF

  type U32 = n: int | 0 <= n <= U32_MAX

  datatype Group = Group(publisherCount: U32, subscriberCount: U32)

  datatype DeviceCounts = DeviceCounts(
    usersCount: U16, reservedSeats: U16, maxUsers: U16,
    unicastCount: U16, maxUnicast: U16,
    publishersCount: U16, maxPublishers: U16,
    subscribersCount: U16, maxSubscribers: U16)
  {
    function Count(kind: Kind): U16 {
      match kind case Unicast => unicastCount case Publisher => publishersCount case Subscriber => subscribersCount
    }

    function Limit(kind: Kind): U16 {
      match kind case Unicast => maxUnicast case Publisher => maxPublishers case Subscriber => maxSubscribers
    }

    function WithCount(kind: Kind, n: U16): DeviceCounts {
      match kind
      case Unicast => this.(unicastCount := n)
      case Publisher => this.(publishersCount := n)
      case Subscriber => this.(subscribersCount := n)
    }

    predicate HasRoom(kind: Kind) {
      AddU16(usersCount, reservedSeats) < maxUsers && !(Limit(kind) > 0 && Count(kind) >= Limit(kind))
    }

    function Joined(kind: Kind): DeviceCounts {
      this.(usersCount := AddU16(usersCount, 1)).WithCount(kind, AddU16(Count(kind), 1))
    }

    function Left(kind: Kind): DeviceCounts {
      this.(usersCount := Less(usersCount)).WithCount(kind, Less(Count(kind)))
    }

    function Limited(limits: Limits): DeviceCounts {
      this.(maxUsers := limits.maxUsers.UnwrapOr(maxUsers),
            maxUnicast := limits.maxUnicast.UnwrapOr(maxUnicast),
            maxPublishers := limits.maxPublishers.UnwrapOr(maxPublishers),
            maxSubscribers := limits.maxSubscribers.UnwrapOr(maxSubscribers))
    }
  }

  /** New limits of a device; a per-kind limit of zero is no limit. */
  datatype Limits = Limits(
    maxUsers: Option<U16>, maxUnicast: Option<U16>, maxPublishers: Option<U16>, maxSubscribers: Option<U16>)

  /** Subtract one, stopping at zero. */
  function Less(n: U16): U16 {
    if n == 0 then 0 else n - 1
  }

  /** The `index`-th prefix block of a device. */
  datatype PrefixBlock = PrefixBlock(device: Pubkey, index: nat)

  /** The addresses of the multicast publisher block, and those of the device prefixes with the
      block each belongs to. */
  datatype Pools = Pools(block: set<Ip>, prefixes: map<Ip, PrefixBlock>) {
    ghost predicate Valid() {
      block !! prefixes.Keys && UNSPECIFIED !in block && UNSPECIFIED !in prefixes
    }

    /** `ip` lies in one of the first `blocks` prefix blocks of `device`. */
    predicate InBlocks(ip: Ip, device: Pubkey, blocks: nat) {
      ip in prefixes && prefixes[ip].device == device && prefixes[ip].index < blocks
    }
  }

  /** The addresses handed out of each pool. */
  datatype Taken = Taken(block: set<Ip>, prefixes: set<Ip>)

  datatype State = State(users: map<Pubkey, Account>, groups: map<Pubkey, Group>, devices: map<Pubkey, DeviceCounts>,
                         taken: Taken)

  datatype Join = Join(group: Pubkey, publisher: bool, subscriber: bool)

  /** The resource accounts an instruction names: whether the publisher block, and how many of the
      device's prefix blocks, from the first on. */
  datatype Named = Named(publisherBlock: bool, blocks: nat)

  /** An instruction on the account `key` that passed every check this model leaves out. `address` is
      what the allocator offers, if it is asked. */
  datatype Event =
    | Create(key: Pubkey, userType: UserType, clientIp: Ip, device: Pubkey, join: Option<Join>, blocks: nat,
             address: Ip)
    | SetRoles(key: Pubkey, change: Join, address: Ip)
    | Ban(key: Pubkey, named: Named)
    | Delete(key: Pubkey, named: Named)
    | SetLimits(key: Pubkey, limits: Limits)

  // --- roles ---

  function Counted(count: U32, was: bool, on: bool): U32 {
    if on && !was then if count < U32_MAX then count + 1 else U32_MAX
    else if !on && was then if count > 0 then count - 1 else 0
    else count
  }

  function GroupAfter(g: Group, a: Account, j: Join): Group {
    Group(Counted(g.publisherCount, j.group in a.publishers, j.publisher),
          Counted(g.subscriberCount, j.group in a.subscribers, j.subscriber))
  }

  /** The change adds a role whose counter is at its maximum. */
  predicate Overcounts(g: Group, a: Account, j: Join) {
    || (j.publisher && j.group !in a.publishers && g.publisherCount == U32_MAX)
    || (j.subscriber && j.group !in a.subscribers && g.subscriberCount == U32_MAX)
  }

  function RolesAfter(a: Account, j: Join): Account {
    a.(publishers := AssignRole(a.publishers, j.group, j.publisher),
       subscribers := AssignRole(a.subscribers, j.group, j.subscriber))
  }

  /** The publisher list became non-empty, or became empty. */
  predicate Transitioned(a: Account, j: Join) {
    if j.publisher then a.publishers == [] else a.publishers != [] && RolesAfter(a, j).publishers == []
  }

  // --- addresses ---

  datatype Addressed = Addressed(account: Account, taken: Taken)

  predicate NeedsAddress(a: Account) {
    match a.userType
    case IBRLWithAllocatedIP => true
    case EdgeFiltering => true
    case IBRL => false
    case Multicast => a.publishers != []
  }

  /** Give the account an address out of the publisher block, if `address` is free there. */
  function FromBlock(a: Account, address: Ip, taken: Taken, pools: Pools): Option<Addressed> {
    if address !in pools.block || address in taken.block then None
    else Some(Addressed(a.(dzIp := address), taken.(block := taken.block + {address})))
  }

  /** The same out of the first `blocks` prefix blocks of the account's device. */
  function FromPrefixes(a: Account, address: Ip, blocks: nat, taken: Taken, pools: Pools): Option<Addressed> {
    if !pools.InBlocks(address, a.devicePk, blocks) || address in taken.prefixes then None
    else Some(Addressed(a.(dzIp := address), taken.(prefixes := taken.prefixes + {address})))
  }

  /** The address of a new account. */
  function FirstAddress(a: Account, address: Ip, blocks: nat, taken: Taken, pools: Pools): Option<Addressed> {
    if !NeedsAddress(a) then Some(Addressed(a.(dzIp := a.clientIp), taken))
    else if a.userType == Multicast then FromBlock(a, address, taken, pools)
    else FromPrefixes(a, address, blocks, taken, pools)
  }

  /** Roles and address of an account after a role change: a first publisher role takes an address
      from the block, giving up the last one gives the address back. */
  function Changed(a: Account, j: Join, address: Ip, taken: Taken, pools: Pools): Option<Addressed> {
    var after := RolesAfter(a, j);
    if Transitioned(a, j) && j.publisher && !a.HasOwnAddress() then FromBlock(after, address, taken, pools)
    else if Transitioned(a, j) && !j.publisher && a.HasOwnAddress() then
      Some(Addressed(after.(dzIp := a.clientIp), taken.(block := taken.block - {a.dzIp})))
    else Some(Addressed(after, taken))
  }

  /** Give the address back to the first of the named pools that has it taken. */
  function Released(a: Account, named: Named, taken: Taken, pools: Pools): Taken {
    if !a.HasOwnAddress() then taken
    else if named.publisherBlock && a.dzIp in taken.block then taken.(block := taken.block - {a.dzIp})
    else if pools.InBlocks(a.dzIp, a.devicePk, named.blocks) then taken.(prefixes := taken.prefixes - {a.dzIp})
    else taken
  }

  // --- instructions; `None` is a failed transaction, which changes nothing ---

  function BareAccount(e: Event): Account
    requires e.Create?
  {
    Account(e.userType, e.clientIp, e.device, UNSPECIFIED, e.join.Some? && e.join.value.publisher, false, [], [])
  }

  function NewAccount(e: Event): Account
    requires e.Create?
  {
    if e.join.Some? then RolesAfter(BareAccount(e), e.join.value) else BareAccount(e)
  }

  function TryCreate(st: State, e: Event, pools: Pools): Option<State>
    requires e.Create?
  {
    var bare := BareAccount(e);
    if e.blocks == 0 || e.key in st.users || e.device !in st.devices then None
    else if !st.devices[e.device].HasRoom(bare.Kind()) then None
    else if e.join.Some? && e.join.value.group !in st.groups then None
    else
      var given := FirstAddress(NewAccount(e), e.address, e.blocks, st.taken, pools);
      if given.None? then None
      else Some(State(
                  st.users[e.key := given.value.account],
                  if e.join.None? then st.groups
                  else st.groups[e.join.value.group := GroupAfter(st.groups[e.join.value.group], bare, e.join.value)],
                  st.devices[e.device := st.devices[e.device].Joined(bare.Kind())],
                  given.value.taken))
  }

  function TrySetRoles(st: State, e: Event, pools: Pools): Option<State>
    requires e.SetRoles?
  {
    if e.key !in st.users || e.change.group !in st.groups then None
    else if st.users[e.key].banned && (e.change.publisher || e.change.subscriber) then None
    else
      var a, j := st.users[e.key], e.change;
      var changed := Changed(a, j, e.address, st.taken, pools);
      if changed.None? then None
      else Some(State(st.users[e.key := changed.value.account],
                      st.groups[j.group := GroupAfter(st.groups[j.group], a, j)],
                      st.devices, changed.value.taken))
  }

  /** Deleting and banning give the user's address back; neither is possible while it has roles. */
  predicate CanRelease(st: State, key: Pubkey, named: Named) {
    && named.blocks > 0 && key in st.users
    && st.users[key].publishers == [] && st.users[key].subscribers == []
  }

  function TryBan(st: State, e: Event, pools: Pools): Option<State>
    requires e.Ban?
  {
    if !CanRelease(st, e.key, e.named) || st.users[e.key].banned then None
    else
      var a := st.users[e.key];
      Some(st.(users := st.users[e.key := a.(dzIp := UNSPECIFIED, banned := true)],
               taken := Released(a, e.named, st.taken, pools)))
  }

  function TryDelete(st: State, e: Event, pools: Pools): Option<State>
    requires e.Delete?
  {
    if !CanRelease(st, e.key, e.named) || st.users[e.key].devicePk !in st.devices then None
    else
      var a := st.users[e.key];
      Some(State(st.users - {e.key}, st.groups, st.devices[a.devicePk := st.devices[a.devicePk].Left(a.Kind())],
                 Released(a, e.named, st.taken, pools)))
  }

  function TrySetLimits(st: State, e: Event): Option<State>
    requires e.SetLimits?
  {
    if e.key !in st.devices then None
    else Some(st.(devices := st.devices[e.key := st.devices[e.key].Limited(e.limits)]))
  }

  function Try(st: State, e: Event, pools: Pools): Option<State> {
    match e
    case Create(_, _, _, _, _, _, _) => TryCreate(st, e, pools)
    case SetRoles(_, _, _) => TrySetRoles(st, e, pools)
    case Ban(_, _) => TryBan(st, e, pools)
    case Delete(_, _) => TryDelete(st, e, pools)
    case SetLimits(_, _) => TrySetLimits(st, e)
  }

  function Step(st: State, e: Event, pools: Pools): State {
    var next := Try(st, e, pools);
    if next.Some? then next.value else st
  }

  function Run(st: State, events: seq<Event>, pools: Pools): State {
    if events == [] then st else Step(Run(st, events[..|events| - 1], pools), events[|events| - 1], pools)
  }

  // --- who has what ---

  function Having(users: map<Pubkey, Account>, p: Account -> bool): set<Pubkey> {
    set k | k in users && p(users[k])
  }

  function Publishes(group: Pubkey): Account -> bool {
    (a: Account) => group in a.publishers
  }

  function Subscribes(group: Pubkey): Account -> bool {
    (a: Account) => group in a.subscribers
  }

  function On(device: Pubkey): Account -> bool {
    (a: Account) => a.devicePk == device
  }

  function OnAs(device: Pubkey, kind: Kind): Account -> bool {
    (a: Account) => a.devicePk == device && a.Kind() == kind
  }

  lemma HavingUpdated(users: map<Pubkey, Account>, k: Pubkey, a: Account, p: Account -> bool)
    ensures
      var now, was := |Having(users[k := a], p)|, |Having(users, p)|;
      var had := k in users && p(users[k]);
      now == if p(a) && !had then was + 1 else if !p(a) && had then was - 1 else was
    ensures k in users && p(users[k]) ==> |Having(users, p)| > 0
  {
    var was := Having(users, p);
    assert Having(users[k := a], p) == if p(a) then was + {k} else was - {k};
  }

  lemma HavingRemoved(users: map<Pubkey, Account>, k: Pubkey, p: Account -> bool)
    requires k in users
    ensures |Having(users - {k}, p)| == |Having(users, p)| - if p(users[k]) then 1 else 0
  {
    assert Having(users - {k}, p) == Having(users, p) - {k};
  }

  lemma HavingAtMostAll(users: map<Pubkey, Account>, p: Account -> bool)
    ensures |Having(users, p)| <= |users|
  {
    Subset(Having(users, p), users.Keys);
  }

  lemma Subset(a: set<Pubkey>, b: set<Pubkey>)
    requires a <= b
    ensures |a| <= |b|
  {
    assert b == a + (b - a);
  }

  // --- group counters ---

  lemma AssignRoleMembers(list: seq<Pubkey>, group: Pubkey, on: bool)
    ensures forall g :: g in AssignRole(list, group, on) <==> if g == group then on else g in list
  {
    FilterMembers(IsNot(group), list);
  }

  ghost predicate GroupCounted(users: map<Pubkey, Account>, g: Pubkey, group: Group) {
    && group.publisherCount == |Having(users, Publishes(g))|
    && group.subscriberCount == |Having(users, Subscribes(g))|
  }

  /** The counters of a group say how many users list it, and only existing groups are listed. */
  ghost predicate GroupsRight(users: map<Pubkey, Account>, groups: map<Pubkey, Group>) {
    && (forall g :: g in groups ==> GroupCounted(users, g, groups[g]))
    && (forall k, g :: k in users && (g in users[k].publishers || g in users[k].subscribers) ==> g in groups)
  }

  lemma GroupsUpdated(users: map<Pubkey, Account>, groups: map<Pubkey, Group>, k: Pubkey,
                      was: Account, a: Account, j: Join)
    requires GroupsRight(users, groups) && j.group in groups
    requires if k in users then was == users[k] else was.publishers == [] && was.subscribers == []
    requires a.publishers == RolesAfter(was, j).publishers && a.subscribers == RolesAfter(was, j).subscribers
    ensures GroupsRight(users[k := a], groups[j.group := GroupAfter(groups[j.group], was, j)])
            <==> !Overcounts(groups[j.group], was, j)
  {
    var users', groups' := users[k := a], groups[j.group := GroupAfter(groups[j.group], was, j)];
    AssignRoleMembers(was.publishers, j.group, j.publisher);
    AssignRoleMembers(was.subscribers, j.group, j.subscriber);
    forall g | g in groups'
      ensures GroupCounted(users', g, groups'[g]) <==> !(g == j.group && Overcounts(groups[g], was, j))
    {
      GroupUpdated(users, g, groups[g], k, was, a, j);
    }
    assert forall g :: g in a.publishers || g in a.subscribers ==> g in groups';
    forall l, g | l in users' && (g in users'[l].publishers || g in users'[l].subscribers) ensures g in groups' {
      if l != k {
        assert users'[l] == users[l];
      }
    }
  }

  lemma GroupUpdated(users: map<Pubkey, Account>, g: Pubkey, group: Group, k: Pubkey, was: Account,
                     a: Account, j: Join)
    requires GroupCounted(users, g, group)
    requires if k in users then was == users[k] else was.publishers == [] && was.subscribers == []
    requires g in a.publishers <==> if g == j.group then j.publisher else g in was.publishers
    requires g in a.subscribers <==> if g == j.group then j.subscriber else g in was.subscribers
    ensures GroupCounted(users[k := a], g, if g == j.group then GroupAfter(group, was, j) else group)
            <==> !(g == j.group && Overcounts(group, was, j))
  {
    HavingUpdated(users, k, a, Publishes(g));
    HavingUpdated(users, k, a, Subscribes(g));
  }

  lemma GroupsUntouched(users: map<Pubkey, Account>, groups: map<Pubkey, Group>, k: Pubkey,
                        a: Account)
    requires GroupsRight(users, groups) && a.publishers == [] && a.subscribers == []
    requires k in users ==> users[k].publishers == [] && users[k].subscribers == []
    ensures GroupsRight(users[k := a], groups)
  {
    forall g | g in groups ensures GroupCounted(users[k := a], g, groups[g]) {
      HavingUpdated(users, k, a, Publishes(g));
      HavingUpdated(users, k, a, Subscribes(g));
    }
  }

  lemma GroupsLeft(users: map<Pubkey, Account>, groups: map<Pubkey, Group>, k: Pubkey)
    requires GroupsRight(users, groups) && k in users && users[k].publishers == [] && users[k].subscribers == []
    ensures GroupsRight(users - {k}, groups)
  {
    forall g | g in groups ensures GroupCounted(users - {k}, g, groups[g]) {
      HavingRemoved(users, k, Publishes(g));
      HavingRemoved(users, k, Subscribes(g));
    }
  }

  /** The instruction goes through and adds a role whose counter is at its maximum. */
  predicate Saturates(st: State, e: Event, pools: Pools) {
    Try(st, e, pools).Some? &&
    match e
    case Create(_, _, _, _, join, _, _) =>
      join.Some? && Overcounts(st.groups[join.value.group], BareAccount(e), join.value)
    case SetRoles(key, change, _) => Overcounts(st.groups[change.group], st.users[key], change)
    case Ban(_, _) => false
    case Delete(_, _) => false
    case SetLimits(_, _) => false
  }

  /** Group counters stay the numbers of users listing the group, unless and only unless an
      instruction adds a role whose counter is at its maximum. */
  lemma GroupsKeptIff(st: State, e: Event, pools: Pools)
    requires GroupsRight(st.users, st.groups)
    ensures GroupsRight(Step(st, e, pools).users, Step(st, e, pools).groups) <==> !Saturates(st, e, pools)
  {
    if Try(st, e, pools).Some? {
      match e
      case Create(_, _, _, _, _, _, _) => GroupsAfterCreate(st, e, pools);
      case SetRoles(_, _, _) => GroupsAfterSetRoles(st, e, pools);
      case Ban(key, _) =>
        GroupsUntouched(st.users, st.groups, key, st.users[key].(dzIp := UNSPECIFIED, banned := true));
      case Delete(key, _) => GroupsLeft(st.users, st.groups, key);
      case SetLimits(_, _) =>
    }
  }

  lemma GroupsAfterSetRoles(st: State, e: Event, pools: Pools)
    requires GroupsRight(st.users, st.groups)
    requires e.SetRoles? && TrySetRoles(st, e, pools).Some?
    ensures GroupsRight(TrySetRoles(st, e, pools).value.users, TrySetRoles(st, e, pools).value.groups)
            <==> !Overcounts(st.groups[e.change.group], st.users[e.key], e.change)
  {
    GroupsUpdated(st.users, st.groups, e.key, st.users[e.key],
                  Changed(st.users[e.key], e.change, e.address, st.taken, pools).value.account, e.change);
  }

  lemma GroupsAfterCreate(st: State, e: Event, pools: Pools)
    requires GroupsRight(st.users, st.groups)
    requires e.Create? && TryCreate(st, e, pools).Some?
    ensures GroupsRight(TryCreate(st, e, pools).value.users, TryCreate(st, e, pools).value.groups)
            <==> !(e.join.Some? && Overcounts(st.groups[e.join.value.group], BareAccount(e), e.join.value))
  {
    var given := FirstAddress(NewAccount(e), e.address, e.blocks, st.taken, pools).value.account;
    if e.join.Some? {
      GroupsUpdated(st.users, st.groups, e.key, BareAccount(e), given, e.join.value);
    } else {
      GroupsUntouched(st.users, st.groups, e.key, given);
    }
  }

  // --- device counters ---

  /** The counters of a device say how many users of each kind it has, and fit their width. */
  ghost predicate DeviceCounted(users: map<Pubkey, Account>, device: Pubkey, d: DeviceCounts) {
    && d.usersCount == |Having(users, On(device))|
    && (forall kind :: d.Count(kind) == |Having(users, OnAs(device, kind))|)
    && CountsFit(d)
  }

  ghost predicate CountsFit(d: DeviceCounts) {
    && d.usersCount == d.unicastCount + d.publishersCount + d.subscribersCount
    && d.usersCount + d.reservedSeats < U16_MODULUS
  }

  lemma JoinedCounts(d: DeviceCounts, kind: Kind)
    requires CountsFit(d) && d.HasRoom(kind)
    ensures CountsFit(d.Joined(kind)) && d.Joined(kind).usersCount == d.usersCount + 1
    ensures d.Joined(kind).Count(kind) == d.Count(kind) + 1
    ensures forall other: Kind :: other != kind ==> d.Joined(kind).Count(other) == d.Count(other)
  {
    assert AddU16(d.usersCount, d.reservedSeats) == d.usersCount + d.reservedSeats;
    assert AddU16(d.usersCount, 1) == d.usersCount + 1;
    match kind
    case Unicast => assert AddU16(d.unicastCount, 1) == d.unicastCount + 1;
    case Publisher => assert AddU16(d.publishersCount, 1) == d.publishersCount + 1;
    case Subscriber => assert AddU16(d.subscribersCount, 1) == d.subscribersCount + 1;
  }

  lemma LeftCounts(d: DeviceCounts, kind: Kind)
    requires CountsFit(d) && d.Count(kind) >= 1
    ensures CountsFit(d.Left(kind)) && d.Left(kind).usersCount == d.usersCount - 1
    ensures d.Left(kind).Count(kind) == d.Count(kind) - 1
    ensures forall other: Kind :: other != kind ==> d.Left(kind).Count(other) == d.Count(other)
  {
  }

  ghost predicate DevicesRight(users: map<Pubkey, Account>, devices: map<Pubkey, DeviceCounts>) {
    && (forall d :: d in devices ==> DeviceCounted(users, d, devices[d]))
    && (forall k :: k in users ==> users[k].devicePk in devices)
  }

  lemma DeviceJoined(users: map<Pubkey, Account>, k: Pubkey, a: Account, d: DeviceCounts)
    requires k !in users && DeviceCounted(users, a.devicePk, d) && d.HasRoom(a.Kind())
    ensures DeviceCounted(users[k := a], a.devicePk, d.Joined(a.Kind()))
  {
    JoinedCounts(d, a.Kind());
    HavingUpdated(users, k, a, On(a.devicePk));
    forall kind ensures d.Joined(a.Kind()).Count(kind) == |Having(users[k := a], OnAs(a.devicePk, kind))| {
      HavingUpdated(users, k, a, OnAs(a.devicePk, kind));
    }
  }

  lemma DeviceLeft(users: map<Pubkey, Account>, k: Pubkey, d: DeviceCounts)
    requires k in users && DeviceCounted(users, users[k].devicePk, d)
    ensures DeviceCounted(users - {k}, users[k].devicePk, d.Left(users[k].Kind()))
  {
    var a := users[k];
    HavingRemoved(users, k, OnAs(a.devicePk, a.Kind()));
    assert d.Count(a.Kind()) >= 1;
    LeftCounts(d, a.Kind());
    HavingRemoved(users, k, On(a.devicePk));
    forall kind ensures d.Left(a.Kind()).Count(kind) == |Having(users - {k}, OnAs(a.devicePk, kind))| {
      HavingRemoved(users, k, OnAs(a.devicePk, kind));
    }
  }

  /** A change to a user that keeps its device and kind is not seen by any device; nor is a change
      on another device. */
  lemma DeviceUnaffected(users: map<Pubkey, Account>, k: Pubkey, a: Account, device: Pubkey,
                         d: DeviceCounts)
    requires DeviceCounted(users, device, d)
    requires k in users ==> users[k].devicePk == a.devicePk && users[k].Kind() == a.Kind()
    requires k !in users ==> a.devicePk != device
    ensures DeviceCounted(users[k := a], device, d)
  {
    HavingUpdated(users, k, a, On(device));
    forall kind ensures d.Count(kind) == |Having(users[k := a], OnAs(device, kind))| {
      HavingUpdated(users, k, a, OnAs(device, kind));
    }
  }

  lemma DeviceUnaffectedByRemoval(users: map<Pubkey, Account>, k: Pubkey, device: Pubkey,
                                  d: DeviceCounts)
    requires DeviceCounted(users, device, d) && k in users && users[k].devicePk != device
    ensures DeviceCounted(users - {k}, device, d)
  {
    HavingRemoved(users, k, On(device));
    forall kind ensures d.Count(kind) == |Having(users - {k}, OnAs(device, kind))| {
      HavingRemoved(users, k, OnAs(device, kind));
    }
  }

  lemma DevicesJoined(users: map<Pubkey, Account>, devices: map<Pubkey, DeviceCounts>, k: Pubkey,
                      a: Account)
    requires DevicesRight(users, devices) && k !in users && a.devicePk in devices
             && devices[a.devicePk].HasRoom(a.Kind())
    ensures DevicesRight(users[k := a], devices[a.devicePk := devices[a.devicePk].Joined(a.Kind())])
  {
    var devices' := devices[a.devicePk := devices[a.devicePk].Joined(a.Kind())];
    DeviceJoined(users, k, a, devices[a.devicePk]);
    forall d | d in devices && d != a.devicePk ensures DeviceCounted(users[k := a], d, devices'[d]) {
      DeviceUnaffected(users, k, a, d, devices[d]);
    }
  }

  lemma DevicesUnaffected(users: map<Pubkey, Account>, devices: map<Pubkey, DeviceCounts>,
                          k: Pubkey, a: Account)
    requires DevicesRight(users, devices) && k in users && users[k].devicePk == a.devicePk
             && users[k].Kind() == a.Kind()
    ensures DevicesRight(users[k := a], devices)
  {
    forall d | d in devices ensures DeviceCounted(users[k := a], d, devices[d]) {
      DeviceUnaffected(users, k, a, d, devices[d]);
    }
  }

  lemma DevicesLeft(users: map<Pubkey, Account>, devices: map<Pubkey, DeviceCounts>, k: Pubkey)
    requires DevicesRight(users, devices) && k in users
    ensures DevicesRight(users - {k}, devices[users[k].devicePk := devices[users[k].devicePk].Left(users[k].Kind())])
  {
    var device := users[k].devicePk;
    var devices' := devices[device := devices[device].Left(users[k].Kind())];
    DeviceLeft(users, k, devices[device]);
    forall d | d in devices && d != device ensures DeviceCounted(users - {k}, d, devices'[d]) {
      DeviceUnaffectedByRemoval(users, k, d, devices[d]);
    }
  }

  lemma DevicesKeptByCreate(st: State, e: Event, pools: Pools)
    requires DevicesRight(st.users, st.devices)
    requires e.Create? && TryCreate(st, e, pools).Some?
    ensures DevicesRight(TryCreate(st, e, pools).value.users, TryCreate(st, e, pools).value.devices)
  {
    var given := FirstAddress(NewAccount(e), e.address, e.blocks, st.taken, pools).value.account;
    assert given.devicePk == e.device && given.Kind() == BareAccount(e).Kind();
    DevicesJoined(st.users, st.devices, e.key, given);
  }

  lemma DevicesKeptBySetRoles(st: State, e: Event, pools: Pools)
    requires DevicesRight(st.users, st.devices)
    requires e.SetRoles? && TrySetRoles(st, e, pools).Some?
    ensures DevicesRight(TrySetRoles(st, e, pools).value.users, TrySetRoles(st, e, pools).value.devices)
  {
    DevicesUnaffected(st.users, st.devices, e.key,
                      Changed(st.users[e.key], e.change, e.address, st.taken, pools).value.account);
  }

  lemma DevicesKept(st: State, e: Event, pools: Pools)
    requires DevicesRight(st.users, st.devices)
    ensures DevicesRight(Step(st, e, pools).users, Step(st, e, pools).devices)
  {
    if Try(st, e, pools).Some? {
      match e
      case Create(_, _, _, _, _, _, _) => DevicesKeptByCreate(st, e, pools);
      case SetRoles(_, _, _) => DevicesKeptBySetRoles(st, e, pools);
      case Ban(key, _) =>
        DevicesUnaffected(st.users, st.devices, key, st.users[key].(dzIp := UNSPECIFIED, banned := true));
      case Delete(key, _) =>
        DevicesLeft(st.users, st.devices, key);
      case SetLimits(key, limits) =>
        DevicesLimited(st.users, st.devices, key, limits);
    }
  }

  lemma DevicesLimited(users: map<Pubkey, Account>, devices: map<Pubkey, DeviceCounts>, d: Pubkey,
                       limits: Limits)
    requires DevicesRight(users, devices) && d in devices
    ensures DevicesRight(users, devices[d := devices[d].Limited(limits)])
  {
    var limited := devices[d].Limited(limits);
    assert DeviceCounted(users, d, devices[d]);
    forall kind ensures limited.Count(kind) == |Having(users, OnAs(d, kind))| {
      assert limited.Count(kind) == devices[d].Count(kind);
    }
  }

  // --- device limits ---

  /** The device has no more users, and no more of any kind, than its limits say. */
  predicate WithinLimits(d: DeviceCounts) {
    && (d.usersCount > 0 ==> d.usersCount + d.reservedSeats <= d.maxUsers)
    && (d.maxUnicast > 0 ==> d.unicastCount <= d.maxUnicast)
    && (d.maxPublishers > 0 ==> d.publishersCount <= d.maxPublishers)
    && (d.maxSubscribers > 0 ==> d.subscribersCount <= d.maxSubscribers)
  }

  /** A create never exceeds the limits in force: neither the total, nor the one of its kind. */
  lemma CreateWithinLimits(st: State, e: Event, pools: Pools)
    requires DevicesRight(st.users, st.devices)
    requires e.Create? && TryCreate(st, e, pools).Some?
    ensures
      var d, kind := Step(st, e, pools).devices[e.device], BareAccount(e).Kind();
      && 0 < d.usersCount && d.usersCount + d.reservedSeats <= d.maxUsers
      && (d.Limit(kind) > 0 ==> d.Count(kind) <= d.Limit(kind))
  {
    JoinedInLimits(st.devices[e.device], BareAccount(e).Kind());
  }

  lemma JoinedInLimits(d: DeviceCounts, kind: Kind)
    requires CountsFit(d) && d.HasRoom(kind)
    ensures
      var j := d.Joined(kind);
      && 0 < j.usersCount && j.usersCount + j.reservedSeats <= j.maxUsers
      && (j.Limit(kind) > 0 ==> j.Count(kind) <= j.Limit(kind))
  {
    JoinedCounts(d, kind);
    assert d.Joined(kind).Limit(kind) == d.Limit(kind);
    assert AddU16(d.usersCount, d.reservedSeats) == d.usersCount + d.reservedSeats;
  }

  /** A new limit below the current count. */
  predicate Undercuts(d: DeviceCounts, limits: Limits) {
    || (limits.maxUsers.Some? && 0 < d.usersCount && limits.maxUsers.value < d.usersCount + d.reservedSeats)
    || (limits.maxUnicast.Some? && 0 < limits.maxUnicast.value < d.unicastCount)
    || (limits.maxPublishers.Some? && 0 < limits.maxPublishers.value < d.publishersCount)
    || (limits.maxSubscribers.Some? && 0 < limits.maxSubscribers.value < d.subscribersCount)
  }

  /** A device within its limits stays there, unless and only unless its own limits are set below
      its counts. */
  lemma LimitsKeptIff(st: State, e: Event, pools: Pools, d: Pubkey)
    requires DevicesRight(st.users, st.devices)
    requires d in st.devices && WithinLimits(st.devices[d])
    ensures d in Step(st, e, pools).devices
    ensures WithinLimits(Step(st, e, pools).devices[d]) <==>
            !(e.SetLimits? && e.key == d && Undercuts(st.devices[d], e.limits))
  {
    if Try(st, e, pools).Some? {
      match e
      case Create(_, _, _, device, _, _, _) =>
        if device == d {
          JoinedWithinLimits(st.devices[d], BareAccount(e).Kind());
        }
      case SetRoles(_, _, _) =>
      case Ban(_, _) =>
      case Delete(key, _) =>
        if st.users[key].devicePk == d {
          LeftWithinLimits(st.devices[d], st.users[key].Kind());
        }
      case SetLimits(key, limits) =>
        if key == d {
          LimitedWithinIff(st.devices[d], limits);
        }
    }
  }

  lemma LimitedWithinIff(d: DeviceCounts, limits: Limits)
    requires WithinLimits(d)
    ensures WithinLimits(d.Limited(limits)) <==> !Undercuts(d, limits)
  {
  }

  lemma JoinedWithinLimits(d: DeviceCounts, kind: Kind)
    requires CountsFit(d) && WithinLimits(d) && d.HasRoom(kind)
    ensures WithinLimits(d.Joined(kind))
  {
    JoinedInLimits(d, kind);
    match kind case Unicast => case Publisher => case Subscriber =>
  }

  lemma LeftWithinLimits(d: DeviceCounts, kind: Kind)
    requires WithinLimits(d)
    ensures WithinLimits(d.Left(kind))
  {
  }
}
