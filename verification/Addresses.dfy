/** The addresses of the multicast publisher block are conserved, and with the counters they stay
    right over every run of the program's user instructions. */
module Addresses {
  import opened Basics
  import opened Ledger
  import opened Accounting
  import NearestDevice
  import DzLedger

  // --- conservation of addresses ---

  ghost predicate Held(users: map<Pubkey, Account>, ip: Ip) {
    exists k :: k in users && users[k].dzIp == ip
  }

  /** Every taken address is a pool address held by a user, every held pool address is taken, and
      no two users hold the same. */
  ghost predicate Conserved(users: map<Pubkey, Account>, taken: set<Ip>, pool: set<Ip>) {
    && (forall ip :: ip in taken ==> ip in pool && Held(users, ip))
    && (forall k :: k in users && users[k].dzIp in pool ==> users[k].dzIp in taken)
    && (forall k, l :: k in users && l in users && k != l && users[k].dzIp in pool ==> users[k].dzIp != users[l].dzIp)
  }

  /** An address is taken but nobody holds it. */
  ghost predicate Leaked(users: map<Pubkey, Account>, taken: set<Ip>, pool: set<Ip>) {
    exists ip :: ip in taken && ip in pool && !Held(users, ip)
  }

  lemma StillHeld(users: map<Pubkey, Account>, taken: set<Ip>, pool: set<Ip>, k: Pubkey, a: Account)
    requires Conserved(users, taken, pool)
    ensures forall ip :: ip in taken && !(k in users && users[k].dzIp == ip) ==> Held(users[k := a], ip)
  {
    var now := users[k := a];
    forall ip | ip in taken && !(k in users && users[k].dzIp == ip) ensures Held(now, ip) {
      assert Held(users, ip);
      var l :| l in users && users[l].dzIp == ip;
      assert l in now && now[l].dzIp == ip;
    }
  }

  lemma AddressTaken(users: map<Pubkey, Account>, taken: set<Ip>, pool: set<Ip>, k: Pubkey,
                     a: Account)
    requires Conserved(users, taken, pool) && (k in users ==> users[k].dzIp !in pool)
    requires a.dzIp in pool && a.dzIp !in taken
    ensures Conserved(users[k := a], taken + {a.dzIp}, pool)
  {
    var now := users[k := a];
    StillHeld(users, taken, pool, k, a);
    assert k in now && now[k].dzIp == a.dzIp;
    assert Held(now, a.dzIp);
  }

  lemma AddressSame(users: map<Pubkey, Account>, taken: set<Ip>, pool: set<Ip>, k: Pubkey,
                    a: Account)
    requires Conserved(users, taken, pool)
    requires if k in users && users[k].dzIp in pool then a.dzIp == users[k].dzIp else a.dzIp !in pool
    ensures Conserved(users[k := a], taken, pool)
  {
    var now := users[k := a];
    StillHeld(users, taken, pool, k, a);
    assert k in now && now[k].dzIp == a.dzIp;
    assert Held(now, a.dzIp);
  }

  lemma AddressReturned(users: map<Pubkey, Account>, taken: set<Ip>, pool: set<Ip>, k: Pubkey,
                        a: Account)
    requires Conserved(users, taken, pool) && k in users && users[k].dzIp in pool && a.dzIp !in pool
    ensures Conserved(users[k := a], taken - {users[k].dzIp}, pool)
    ensures Leaked(users[k := a], taken, pool)
  {
    var now := users[k := a];
    StillHeld(users, taken, pool, k, a);
    assert users[k].dzIp in taken;
    assert forall l :: l in now ==> now[l].dzIp != users[k].dzIp;
    assert !Held(now, users[k].dzIp);
  }

  lemma AddressRemoved(users: map<Pubkey, Account>, taken: set<Ip>, pool: set<Ip>, k: Pubkey)
    requires Conserved(users, taken, pool) && k in users
    ensures Conserved(users - {k}, taken - {users[k].dzIp}, pool)
    ensures if users[k].dzIp in pool then Leaked(users - {k}, taken, pool) else Conserved(users - {k}, taken, pool)
  {
    var now := users - {k};
    assert users[k].dzIp in pool ==> users[k].dzIp in taken && !Held(now, users[k].dzIp);
    forall ip | ip in taken && ip != users[k].dzIp ensures Held(now, ip) {
      assert Held(users, ip);
      var l :| l in users && users[l].dzIp == ip;
      assert l in now && now[l].dzIp == ip;
    }
  }

  /** The account's address is the client's or one of the pools', none while it is banned; a block
      address means publishing, a multicast user has one whenever it publishes, and a prefix address
      is one of the account's own device. */
  ghost predicate AccountValid(a: Account, pools: Pools) {
    && a.clientIp != UNSPECIFIED && a.clientIp !in pools.block && a.clientIp !in pools.prefixes
    && (a.dzIp == UNSPECIFIED <==> a.banned)
    && (a.banned ==> a.publishers == [] && a.subscribers == [])
    && (a.HasOwnAddress() ==> a.dzIp in pools.block || a.dzIp in pools.prefixes)
    && (a.dzIp in pools.block ==> a.publishers != [])
    && (a.userType == Multicast && a.publishers != [] ==> a.dzIp in pools.block)
    && (a.dzIp in pools.prefixes ==> a.userType != Multicast && pools.prefixes[a.dzIp].device == a.devicePk)
  }

  ghost predicate AddressesRight(users: map<Pubkey, Account>, taken: Taken, pools: Pools) {
    && (forall k :: k in users ==> AccountValid(users[k], pools))
    && Conserved(users, taken.block, pools.block)
  }

  /** Clients come from outside the pools. */
  predicate Outside(e: Event, pools: Pools) {
    e.Create? ==> e.clientIp !in pools.block && e.clientIp !in pools.prefixes && e.clientIp != UNSPECIFIED
  }

  lemma EmptiedList(list: seq<Pubkey>, group: Pubkey, on: bool)
    ensures on ==> AssignRole(list, group, on) != []
    ensures !on && list == [] ==> AssignRole(list, group, on) == []
  {
    AssignRoleMembers(list, group, on);
  }

  lemma FirstAddressRight(users: map<Pubkey, Account>, taken: Taken, k: Pubkey, a: Account,
                          address: Ip, blocks: nat, pools: Pools)
    requires pools.Valid() && AddressesRight(users, taken, pools) && k !in users && !a.banned
    requires a.clientIp !in pools.block && a.clientIp !in pools.prefixes && a.clientIp != UNSPECIFIED
    requires FirstAddress(a, address, blocks, taken, pools).Some?
    ensures
      var given := FirstAddress(a, address, blocks, taken, pools).value;
      AddressesRight(users[k := given.account], given.taken, pools)
  {
    var given := FirstAddress(a, address, blocks, taken, pools).value;
    assert AccountValid(given.account, pools);
    if given.account.dzIp in pools.block {
      AddressTaken(users, taken.block, pools.block, k, given.account);
    } else {
      AddressSame(users, taken.block, pools.block, k, given.account);
    }
  }

  lemma ChangedRight(users: map<Pubkey, Account>, taken: Taken, k: Pubkey, j: Join, address: Ip,
                     pools: Pools)
    requires pools.Valid() && AddressesRight(users, taken, pools) && k in users
    requires users[k].banned ==> !j.publisher && !j.subscriber
    requires Changed(users[k], j, address, taken, pools).Some?
    ensures
      var changed := Changed(users[k], j, address, taken, pools).value;
      AddressesRight(users[k := changed.account], changed.taken, pools)
  {
    var a, changed := users[k], Changed(users[k], j, address, taken, pools).value;
    EmptiedList(a.publishers, j.group, j.publisher);
    assert AccountValid(a, pools);
    assert AccountValid(changed.account, pools);
    if changed.account.dzIp == a.dzIp || (a.dzIp !in pools.block && changed.account.dzIp !in pools.block) {
      AddressSame(users, taken.block, pools.block, k, changed.account);
      assert a.dzIp !in pools.block ==> a.dzIp !in taken.block;
      assert changed.taken.block == taken.block;
    } else if a.dzIp in pools.block {
      AddressReturned(users, taken.block, pools.block, k, changed.account);
    } else {
      AddressTaken(users, taken.block, pools.block, k, changed.account);
    }
  }

  lemma BlockUntouched(users: map<Pubkey, Account>, taken: Taken, k: Pubkey, named: Named, pools: Pools)
    requires pools.Valid() && AddressesRight(users, taken, pools) && k in users && users[k].publishers == []
    ensures users[k].dzIp !in pools.block && Released(users[k], named, taken, pools).block == taken.block
  {
    assert AccountValid(users[k], pools);
  }

  lemma AddressesKept(st: State, e: Event, pools: Pools)
    requires pools.Valid() && Outside(e, pools) && AddressesRight(st.users, st.taken, pools)
    ensures AddressesRight(Step(st, e, pools).users, Step(st, e, pools).taken, pools)
  {
    if Try(st, e, pools).Some? {
      match e
      case Create(key, _, _, _, _, blocks, address) =>
        FirstAddressRight(st.users, st.taken, key, NewAccount(e), address, blocks, pools);
      case SetRoles(key, change, address) =>
        ChangedRight(st.users, st.taken, key, change, address, pools);
      case Ban(key, named) =>
        BlockUntouched(st.users, st.taken, key, named, pools);
        AddressSame(st.users, st.taken.block, pools.block, key, st.users[key].(dzIp := UNSPECIFIED, banned := true));
      case Delete(key, named) =>
        BlockUntouched(st.users, st.taken, key, named, pools);
        AddressRemoved(st.users, st.taken.block, pools.block, key);
      case SetLimits(_, _) =>
    }
  }

  // --- runs ---

  ghost predicate Sound(st: State, pools: Pools) {
    && GroupsRight(st.users, st.groups)
    && DevicesRight(st.users, st.devices)
    && AddressesRight(st.users, st.taken, pools)
  }

  /** No user yet, all counters zero, nothing handed out. */
  ghost predicate Initial(st: State) {
    && st.users == map[] && st.taken == Taken({}, {})
    && (forall g :: g in st.groups ==> st.groups[g] == Group(0, 0))
    && (forall d :: d in st.devices ==> st.devices[d].usersCount == 0 && forall kind :: st.devices[d].Count(kind) == 0)
  }

  lemma InitialIsSound(st: State, pools: Pools)
    requires Initial(st)
    ensures Sound(st, pools)
  {
    forall p: Account -> bool ensures Having(st.users, p) == {} {
    }
    forall d | d in st.devices ensures DeviceCounted(st.users, d, st.devices[d]) {
      var c := st.devices[d];
      assert c.Count(Unicast) == 0 && c.Count(Publisher) == 0 && c.Count(Subscriber) == 0;
    }
  }

  /** Over every run: each device's counters are the numbers of its users and fit their width, and
      publisher addresses are neither leaked nor handed out twice. */
  lemma {:induction false} RunIsRight(st: State, events: seq<Event>, pools: Pools)
    requires pools.Valid() && Initial(st)
    requires forall e :: e in events ==> Outside(e, pools)
    ensures
      var last := Run(st, events, pools);
      && DevicesRight(last.users, last.devices) && AddressesRight(last.users, last.taken, pools)
      && last.devices.Keys == st.devices.Keys
  {
    if events == [] {
      InitialIsSound(st, pools);
    } else {
      var init, e := events[..|events| - 1], events[|events| - 1];
      RunIsRight(st, init, pools);
      DevicesKept(Run(st, init, pools), e, pools);
      AddressesKept(Run(st, init, pools), e, pools);
      SameDevices(Run(st, init, pools), e, pools);
    }
  }

  lemma SameDevices(st: State, e: Event, pools: Pools)
    ensures Step(st, e, pools).devices.Keys == st.devices.Keys
  {
  }

  // --- group counters over a run ---

  /** No instruction of the run adds a role whose counter is at its maximum. */
  predicate NeverSaturates(st: State, events: seq<Event>, pools: Pools) {
    events == []
    || (var init := events[..|events| - 1];
        NeverSaturates(st, init, pools) && !Saturates(Run(st, init, pools), events[|events| - 1], pools))
  }

  /** The group counters are right in every state of the run. */
  ghost predicate GroupsAlwaysRight(st: State, events: seq<Event>, pools: Pools) {
    forall n :: 0 <= n <= |events| ==>
      GroupsRight(Run(st, events[..n], pools).users, Run(st, events[..n], pools).groups)
  }

  /** In every state of a run the group counters are the numbers of users listing the group, if and
      only if no instruction of it adds a role whose counter is at its maximum. */
  lemma {:induction false} RunCountsGroupsIff(st: State, events: seq<Event>, pools: Pools)
    requires Initial(st)
    ensures GroupsAlwaysRight(st, events, pools) <==> NeverSaturates(st, events, pools)
  {
    assert events[..|events|] == events;
    if events == [] {
      InitialIsSound(st, pools);
    } else {
      var init, e := events[..|events| - 1], events[|events| - 1];
      RunCountsGroupsIff(st, init, pools);
      assert init[..|init|] == init;
      assert forall n :: 0 <= n <= |init| ==> events[..n] == init[..n];
      if GroupsAlwaysRight(st, init, pools) {
        GroupsKeptIff(Run(st, init, pools), e, pools);
      }
    }
  }

  /** The users on some of the devices. */
  function UsersOn(users: map<Pubkey, Account>, devices: set<Pubkey>): set<Pubkey> {
    set k | k in users && users[k].devicePk in devices
  }

  lemma UsersOnSplit(users: map<Pubkey, Account>, devices: set<Pubkey>, d: Pubkey)
    requires d in devices
    ensures |UsersOn(users, devices)| <= |UsersOn(users, devices - {d})| + |Having(users, On(d))|
  {
    var others, here := UsersOn(users, devices - {d}), Having(users, On(d));
    assert UsersOn(users, devices) == others + here;
    assert |others + here| <= |others| + |here|;
  }

  lemma {:induction false} UsersOnBounded(users: map<Pubkey, Account>, devices: set<Pubkey>)
    requires forall d :: d in devices ==> |Having(users, On(d))| <= 65535
    ensures |UsersOn(users, devices)| <= 65535 * |devices|
    decreases |devices|
  {
    if devices == {} {
      assert UsersOn(users, devices) == {};
    } else {
      var d :| d in devices;
      UsersOnBounded(users, devices - {d});
      UsersOnSplit(users, devices, d);
      var n := |devices - {d}|;
      assert |devices| == n + 1;
    }
  }

  /** Device counters are 16 bits wide, so devices bound the number of users. */
  lemma UsersBounded(users: map<Pubkey, Account>, devices: map<Pubkey, DeviceCounts>)
    requires DevicesRight(users, devices)
    ensures |users| <= 65535 * |devices|
  {
    forall d | d in devices.Keys ensures |Having(users, On(d))| <= 65535 {
      assert DeviceCounted(users, d, devices[d]);
    }
    UsersOnBounded(users, devices.Keys);
    assert UsersOn(users, devices.Keys) == users.Keys;
  }

  lemma OneMore(users: map<Pubkey, Account>, p: Account -> bool, key: Pubkey, next: map<Pubkey, Account>)
    requires users.Keys + {key} <= next.Keys && key !in Having(users, p)
    ensures |next| > |Having(users, p)|
  {
    Subset(Having(users, p) + {key}, next.Keys);
  }

  /** A role that saturates its counter is one of more than 2^32 - 1 users'. */
  lemma SaturatedByMany(st: State, e: Event, pools: Pools)
    requires GroupsRight(st.users, st.groups) && Saturates(st, e, pools)
    ensures |Step(st, e, pools).users| > U32_MAX
  {
    var next := Step(st, e, pools).users;
    var j := if e.Create? then e.join.value else e.change;
    assert GroupCounted(st.users, j.group, st.groups[j.group]);
    if Publishes(j.group)(if e.key in st.users then st.users[e.key] else BareAccount(e))
       || st.groups[j.group].publisherCount < U32_MAX || !j.publisher {
      OneMore(st.users, Subscribes(j.group), e.key, next);
    } else {
      OneMore(st.users, Publishes(j.group), e.key, next);
    }
  }

  /** Up to 65537 devices, no run saturates a group counter: they cannot hold that many users. */
  lemma {:induction false} FewDevicesNeverSaturate(st: State, events: seq<Event>, pools: Pools)
    requires pools.Valid() && Initial(st) && |st.devices| <= 65537
    requires forall e :: e in events ==> Outside(e, pools)
    ensures NeverSaturates(st, events, pools)
  {
    if events != [] {
      var init, e := events[..|events| - 1], events[|events| - 1];
      FewDevicesNeverSaturate(st, init, pools);
      RunCountsGroupsIff(st, init, pools);
      assert init[..|init|] == init;
      if Saturates(Run(st, init, pools), e, pools) {
        SaturatedByMany(Run(st, init, pools), e, pools);
        RunIsRight(st, events, pools);
        var last := Run(st, events, pools);
        UsersBounded(last.users, last.devices);
      }
    }
  }

  /** Over every run of any length on at most 65537 devices: each group's counters are the numbers of
      users listing it, each device's counters are the numbers of its users and fit their width, and
      publisher addresses are neither leaked nor handed out twice. */
  lemma RunIsSound(st: State, events: seq<Event>, pools: Pools)
    requires pools.Valid() && Initial(st) && |st.devices| <= 65537
    requires forall e :: e in events ==> Outside(e, pools)
    ensures Sound(Run(st, events, pools), pools)
  {
    RunIsRight(st, events, pools);
    FewDevicesNeverSaturate(st, events, pools);
    RunCountsGroupsIff(st, events, pools);
    assert events[..|events|] == events;
  }

  /** What the sentinel reads of a device. */
  function Info(pk: Pubkey, code: Code, d: DeviceCounts): DzLedger.DzDeviceInfo {
    DzLedger.DzDeviceInfo(pk, code, d.usersCount, d.maxUsers, d.reservedSeats, d.publishersCount, d.maxPublishers)
  }

  /** Every device the sentinel can read has counters its placement can work with, and its capacity
      test agrees with the number of free slots. */
  lemma ReachableDevicesConsistent(st: State, events: seq<Event>, pools: Pools, d: Pubkey,
                                   code: Code)
    requires pools.Valid() && Initial(st)
    requires forall e :: e in events ==> Outside(e, pools)
    requires d in Run(st, events, pools).devices
    ensures
      var info := Info(d, code, Run(st, events, pools).devices[d]);
      NearestDevice.SeatsFit(info) && info.publishersCount <= info.usersCount
      && (NearestDevice.HasCapacity(info) <==> NearestDevice.FreeSlots(info) > 0)
  {
    RunIsRight(st, events, pools);
    NearestDevice.CapacityIsFreeSlots(Info(d, code, Run(st, events, pools).devices[d]));
  }
}
