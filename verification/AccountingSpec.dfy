/** The user instructions on the fields of accounts and devices: when each goes through, and what it
    leaves behind. */
module AccountingSpec {
  import opened Basics
  import opened Onchain
  import opened Accounting
  import opened Addresses

  // --- creating a user ---

  ghost predicate Publishing(e: Event)
    requires e.Create?
  {
    e.join.Some? && e.join.value.publisher
  }

  /** The device has a seat, and the limit of the user's kind is not reached; a limit of zero is none. */
  ghost predicate HasSeat(d: DeviceCounts, userType: UserType, publisher: bool) {
    && (d.usersCount + d.reservedSeats) % 65536 < d.maxUsers
    && (userType != Multicast ==> d.maxUnicast == 0 || d.unicastCount < d.maxUnicast)
    && (userType == Multicast && publisher ==> d.maxPublishers == 0 || d.publishersCount < d.maxPublishers)
    && (userType == Multicast && !publisher ==> d.maxSubscribers == 0 || d.subscribersCount < d.maxSubscribers)
  }

  /** The address offered can be taken: a multicast publisher's from the publisher block, an IBRL user's
      with an allocated IP and an edge filtering user's from a named prefix block of its device; others
      need none. */
  ghost predicate CanAddress(st: State, e: Event, pools: Pools)
    requires e.Create?
  {
    match e.userType
    case IBRL => true
    case Multicast => Publishing(e) ==> e.address in pools.block && e.address !in st.taken.block
    case _ =>
      && e.address in pools.prefixes && e.address !in st.taken.prefixes
      && pools.prefixes[e.address].device == e.device && pools.prefixes[e.address].index < e.blocks
  }

  ghost predicate TakesAddress(e: Event)
    requires e.Create?
  {
    e.userType == IBRLWithAllocatedIP || e.userType == EdgeFiltering || (e.userType == Multicast && Publishing(e))
  }

  lemma RoomIff(d: DeviceCounts, a: Account)
    ensures d.HasRoom(a.Kind()) <==> HasSeat(d, a.userType, a.createdAsPublisher)
  {
    assert AddU16(d.usersCount, d.reservedSeats) == (d.usersCount + d.reservedSeats) % 65536;
  }

  lemma NewRoles(e: Event)
    requires e.Create?
    ensures
      var a := NewAccount(e);
      && a.publishers == (if Publishing(e) then [e.join.value.group] else [])
      && a.subscribers == (if e.join.Some? && e.join.value.subscriber then [e.join.value.group] else [])
      && a == BareAccount(e).(publishers := a.publishers, subscribers := a.subscribers)
  {
    if e.join.Some? {
      var empty: seq<Pubkey> := [];
      assert Filter(IsNot(e.join.value.group), empty) == empty;
    }
  }

  lemma AddressIff(st: State, e: Event, pools: Pools)
    requires e.Create?
    ensures
      var given := FirstAddress(NewAccount(e), e.address, e.blocks, st.taken, pools);
      && (given.Some? <==> CanAddress(st, e, pools))
      && (given.Some? ==>
            && given.value.account == NewAccount(e).(dzIp := if TakesAddress(e) then e.address else e.clientIp)
            && given.value.taken
               == if !TakesAddress(e) then st.taken
                  else if e.userType == Multicast then st.taken.(block := st.taken.block + {e.address})
                  else st.taken.(prefixes := st.taken.prefixes + {e.address}))
  {
    NewRoles(e);
  }

  /** A user is created if and only if a block is named, the address is new, the device is known and has
      room for it, the group is known, and its address can be taken. The account then has the roles and
      the address asked for. */
  lemma CreateIs(st: State, e: Event, pools: Pools)
    requires e.Create?
    ensures
      var next := Try(st, e, pools);
      && (next.Some? <==>
            && e.blocks > 0 && e.key !in st.users
            && e.device in st.devices && HasSeat(st.devices[e.device], e.userType, Publishing(e))
            && (e.join.Some? ==> e.join.value.group in st.groups) && CanAddress(st, e, pools))
      && (next.Some? ==>
            next.value.users
            == st.users[e.key := Account(
                 e.userType, e.clientIp, e.device, if TakesAddress(e) then e.address else e.clientIp,
                 Publishing(e), false, if Publishing(e) then [e.join.value.group] else [],
                 if e.join.Some? && e.join.value.subscriber then [e.join.value.group] else [])])
  {
    if e.device in st.devices {
      RoomIff(st.devices[e.device], BareAccount(e));
    }
    NewRoles(e);
    AddressIff(st, e, pools);
  }

  // --- changing roles ---

  /** The change makes the user a publisher, which it was not, or ends its last publisher role. */
  ghost predicate StartsPublishing(a: Account, j: Join) {
    j.publisher && a.publishers == []
  }

  ghost predicate StopsPublishing(a: Account, j: Join) {
    !j.publisher && a.publishers != [] && forall g <- a.publishers :: g == j.group
  }

  lemma StopsIff(a: Account, j: Join)
    ensures StopsPublishing(a, j) <==> !j.publisher && Transitioned(a, j)
    ensures StartsPublishing(a, j) <==> j.publisher && Transitioned(a, j)
  {
    FilterMembers(IsNot(j.group), a.publishers);
    var rest := Filter(IsNot(j.group), a.publishers);
    assert rest != [] ==> rest[0] in rest;
  }

  /** The user has no address but the client's. */
  ghost predicate OnClientAddress(a: Account) {
    a.dzIp == 0 || a.dzIp == a.clientIp
  }

  /** Roles are changed if and only if user and group are known, a banned user is given none, and a user
      that starts publishing without an address of its own can be given one from the publisher block.
      Both roles then are as asked, the others as before; the address is taken when it starts
      publishing without one and given up when it stops. */
  lemma SetRolesIs(st: State, e: Event, pools: Pools)
    requires e.SetRoles?
    ensures
      var next, j := Try(st, e, pools), e.change;
      && (next.Some? <==>
            && e.key in st.users && j.group in st.groups
            && (st.users[e.key].banned ==> !j.publisher && !j.subscriber)
            && (StartsPublishing(st.users[e.key], j) && OnClientAddress(st.users[e.key]) ==>
                  e.address in pools.block && e.address !in st.taken.block))
      && (next.Some? ==>
            var a := st.users[e.key];
            && e.key in next.value.users && next.value.users == st.users[e.key := next.value.users[e.key]]
            && var b := next.value.users[e.key];
               && (forall g :: g in b.publishers <==> if g == j.group then j.publisher else g in a.publishers)
               && (forall g :: g in b.subscribers <==> if g == j.group then j.subscriber else g in a.subscribers)
               && b == a.(publishers := b.publishers, subscribers := b.subscribers, dzIp := b.dzIp)
               && b.dzIp == if StartsPublishing(a, j) && OnClientAddress(a) then e.address
                            else if StopsPublishing(a, j) && !OnClientAddress(a) then a.clientIp
                            else a.dzIp)
  {
    if e.key in st.users {
      var a, j := st.users[e.key], e.change;
      StopsIff(a, j);
      AssignRoleMembers(a.publishers, j.group, j.publisher);
      AssignRoleMembers(a.subscribers, j.group, j.subscriber);
    }
  }

  // --- banning and deleting ---

  /** What is given back: the address goes to the publisher block if that is named and has it taken, else
      to a named prefix block of the device that holds it. */
  lemma ReleasedIs(a: Account, named: Named, taken: Taken, pools: Pools)
    ensures
      var now := Released(a, named, taken, pools);
      if OnClientAddress(a) then now == taken
      else if named.publisherBlock && a.dzIp in taken.block then now == Taken(taken.block - {a.dzIp}, taken.prefixes)
      else if a.dzIp in pools.prefixes && pools.prefixes[a.dzIp].device == a.devicePk
              && pools.prefixes[a.dzIp].index < named.blocks
      then now == Taken(taken.block, taken.prefixes - {a.dzIp})
      else now == taken
  {
  }

  /** A user without roles is banned once, and deleted; a block has to be named. Nothing else is. */
  lemma ReleaseIs(st: State, e: Event, pools: Pools)
    requires e.Ban? || e.Delete?
    ensures
      var next := Try(st, e, pools);
      && (next.Some? <==>
            && e.named.blocks > 0 && e.key in st.users
            && st.users[e.key].publishers == [] && st.users[e.key].subscribers == []
            && (if e.Ban? then !st.users[e.key].banned else st.users[e.key].devicePk in st.devices))
      && (next.Some? ==>
            && next.value.groups == st.groups
            && next.value.taken == Released(st.users[e.key], e.named, st.taken, pools)
            && next.value.users
               == if e.Ban? then st.users[e.key := st.users[e.key].(dzIp := 0, banned := true)]
                  else map k | k in st.users && k != e.key :: st.users[k])
  {
  }

  /** New limits replace the old ones, and the counters stay. */
  lemma SetLimitsIs(st: State, e: Event, pools: Pools)
    requires e.SetLimits? && e.key in st.devices
    ensures
      var d, next := st.devices[e.key], Step(st, e, pools);
      && next.users == st.users && next.groups == st.groups && next.taken == st.taken
      && next.devices == st.devices[e.key := DeviceCounts(
           d.usersCount, d.reservedSeats, if e.limits.maxUsers.Some? then e.limits.maxUsers.value else d.maxUsers,
           d.unicastCount, if e.limits.maxUnicast.Some? then e.limits.maxUnicast.value else d.maxUnicast,
           d.publishersCount, if e.limits.maxPublishers.Some? then e.limits.maxPublishers.value else d.maxPublishers,
           d.subscribersCount,
           if e.limits.maxSubscribers.Some? then e.limits.maxSubscribers.value else d.maxSubscribers)]
  {
  }

  // --- what the counters count ---

  /** Over every run: a device's counters are the numbers of its users, of those that are not multicast,
      and of the multicast ones created as publishers and not. */
  lemma RunCountsUsers(st: State, events: seq<Event>, pools: Pools, device: Pubkey)
    requires pools.Valid() && Initial(st)
    requires forall e :: e in events ==> Outside(e, pools)
    requires device in st.devices
    ensures
      var last := Run(st, events, pools);
      && device in last.devices
      && var users, d := last.users, last.devices[device];
         && d.usersCount == |set k | k in users && users[k].devicePk == device|
         && d.unicastCount == |set k | k in users && users[k].devicePk == device && users[k].userType != Multicast|
         && d.publishersCount
            == |set k | k in users && users[k].devicePk == device && users[k].userType == Multicast
                        && users[k].createdAsPublisher|
         && d.subscribersCount
            == |set k | k in users && users[k].devicePk == device && users[k].userType == Multicast
                        && !users[k].createdAsPublisher|
  {
    RunIsRight(st, events, pools);
    var last := Run(st, events, pools);
    assert device in last.devices.Keys;
    CountsAre(last.users, device, last.devices[device]);
  }

  lemma CountsAre(users: map<Pubkey, Account>, device: Pubkey, d: DeviceCounts)
    requires DeviceCounted(users, device, d)
    ensures d.usersCount == |set k | k in users && users[k].devicePk == device|
    ensures d.unicastCount == |set k | k in users && users[k].devicePk == device && users[k].userType != Multicast|
    ensures d.publishersCount
            == |set k | k in users && users[k].devicePk == device && users[k].userType == Multicast
                        && users[k].createdAsPublisher|
    ensures d.subscribersCount
            == |set k | k in users && users[k].devicePk == device && users[k].userType == Multicast
                        && !users[k].createdAsPublisher|
  {
    assert d.Count(Unicast) == d.unicastCount && d.Count(Publisher) == d.publishersCount
        && d.Count(Subscriber) == d.subscribersCount;
    AllOn(users, device);
    UnicastOn(users, device);
    MulticastOn(users, device);
  }

  lemma AllOn(users: map<Pubkey, Account>, device: Pubkey)
    ensures Having(users, On(device)) == set k | k in users && users[k].devicePk == device
  {
  }

  lemma UnicastOn(users: map<Pubkey, Account>, device: Pubkey)
    ensures Having(users, OnAs(device, Unicast))
            == set k | k in users && users[k].devicePk == device && users[k].userType != Multicast
  {
  }

  lemma MulticastOn(users: map<Pubkey, Account>, device: Pubkey)
    ensures Having(users, OnAs(device, Publisher))
            == set k | k in users && users[k].devicePk == device && users[k].userType == Multicast
                       && users[k].createdAsPublisher
    ensures Having(users, OnAs(device, Subscriber))
            == set k | k in users && users[k].devicePk == device && users[k].userType == Multicast
                       && !users[k].createdAsPublisher
  {
  }
}
