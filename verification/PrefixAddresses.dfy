/** Addresses of device prefixes: which instructions lose one, and what that means for a run. */
module PrefixAddresses {
  import opened Basics
  import opened Onchain
  import opened Ledger
  import opened Accounting
  import opened Addresses

  /** The instruction goes through and makes the account lose a prefix address without giving it
      back: it ends the user's last publisher role, or it bans or deletes the user without naming
      the prefix block the address is from. */
  predicate DropsPrefix(st: State, e: Event, pools: Pools) {
    && Try(st, e, pools).Some? && e.key in st.users && st.users[e.key].dzIp in pools.prefixes
    && match e
       case SetRoles(key, change, _) => !change.publisher && Transitioned(st.users[key], change)
       case Ban(key, named) => pools.prefixes[st.users[key].dzIp].index >= named.blocks
       case Delete(key, named) => pools.prefixes[st.users[key].dzIp].index >= named.blocks
       case Create(_, _, _, _, _, _, _) => false
       case SetLimits(_, _) => false
  }

  ghost predicate PrefixesConserved(st: State, pools: Pools) {
    Conserved(st.users, st.taken.prefixes, pools.prefixes.Keys)
  }

  /** Some prefix address is taken but nobody holds it. */
  ghost predicate PrefixLeaked(st: State, pools: Pools) {
    Leaked(st.users, st.taken.prefixes, pools.prefixes.Keys)
  }

  lemma PrefixesKeptByCreate(st: State, e: Event, pools: Pools)
    requires pools.Valid() && Outside(e, pools) && PrefixesConserved(st, pools)
    requires e.Create?
    ensures PrefixesConserved(Step(st, e, pools), pools)
  {
    if Try(st, e, pools).Some? {
      var given := FirstAddress(NewAccount(e), e.address, e.blocks, st.taken, pools).value.account;
      if given.dzIp in pools.prefixes {
        AddressTaken(st.users, st.taken.prefixes, pools.prefixes.Keys, e.key, given);
      } else {
        AddressSame(st.users, st.taken.prefixes, pools.prefixes.Keys, e.key, given);
      }
    }
  }

  /** What a role change does to a prefix address. */
  lemma ChangedPrefix(a: Account, j: Join, address: Ip, taken: Taken, pools: Pools)
    requires pools.Valid() && AccountValid(a, pools) && Changed(a, j, address, taken, pools).Some?
    ensures
      var changed := Changed(a, j, address, taken, pools).value;
      && changed.taken.prefixes == taken.prefixes
      && (if a.dzIp in pools.prefixes && !j.publisher && Transitioned(a, j) then changed.account.dzIp == a.clientIp
          else if a.dzIp in pools.prefixes then changed.account.dzIp == a.dzIp
          else changed.account.dzIp !in pools.prefixes)
  {
  }

  /** Prefix addresses after an instruction: one is leaked, or all are conserved. */
  ghost predicate LeakedOrConserved(next: State, drops: bool, pools: Pools) {
    if drops then PrefixLeaked(next, pools) else PrefixesConserved(next, pools)
  }

  lemma PrefixesAfterSetRoles(st: State, e: Event, pools: Pools)
    requires pools.Valid() && AddressesRight(st.users, st.taken, pools) && PrefixesConserved(st, pools)
    requires e.SetRoles? && TrySetRoles(st, e, pools).Some?
    ensures LeakedOrConserved(Step(st, e, pools), DropsPrefix(st, e, pools), pools)
  {
    var a, pool := st.users[e.key], pools.prefixes.Keys;
    var changed := Changed(a, e.change, e.address, st.taken, pools).value;
    assert AccountValid(a, pools);
    ChangedPrefix(a, e.change, e.address, st.taken, pools);
    if a.dzIp in pool && changed.account.dzIp !in pool {
      AddressReturned(st.users, st.taken.prefixes, pool, e.key, changed.account);
    } else {
      AddressSame(st.users, st.taken.prefixes, pool, e.key, changed.account);
    }
  }

  /** What giving an address back does to the prefixes. */
  lemma ReleasedPrefix(users: map<Pubkey, Account>, taken: Taken, k: Pubkey, named: Named, pools: Pools)
    requires pools.Valid() && AddressesRight(users, taken, pools) && k in users && users[k].publishers == []
    ensures Released(users[k], named, taken, pools).prefixes ==
            if users[k].dzIp in pools.prefixes && pools.prefixes[users[k].dzIp].index < named.blocks
            then taken.prefixes - {users[k].dzIp} else taken.prefixes
  {
    assert AccountValid(users[k], pools);
  }

  lemma PrefixesAfterBan(st: State, e: Event, pools: Pools)
    requires pools.Valid() && AddressesRight(st.users, st.taken, pools) && PrefixesConserved(st, pools)
    requires e.Ban? && TryBan(st, e, pools).Some?
    ensures LeakedOrConserved(Step(st, e, pools), DropsPrefix(st, e, pools), pools)
  {
    var a, pool := st.users[e.key], pools.prefixes.Keys;
    var banned := a.(dzIp := UNSPECIFIED, banned := true);
    ReleasedPrefix(st.users, st.taken, e.key, e.named, pools);
    if a.dzIp in pool {
      AddressReturned(st.users, st.taken.prefixes, pool, e.key, banned);
    } else {
      AddressSame(st.users, st.taken.prefixes, pool, e.key, banned);
    }
  }

  lemma PrefixesAfterDelete(st: State, e: Event, pools: Pools)
    requires pools.Valid() && AddressesRight(st.users, st.taken, pools) && PrefixesConserved(st, pools)
    requires e.Delete? && TryDelete(st, e, pools).Some?
    ensures LeakedOrConserved(Step(st, e, pools), DropsPrefix(st, e, pools), pools)
  {
    ReleasedPrefix(st.users, st.taken, e.key, e.named, pools);
    AddressRemoved(st.users, st.taken.prefixes, pools.prefixes.Keys, e.key);
  }

  /** Every instruction conserves the prefix addresses, or drops one. */
  lemma PrefixesAfter(st: State, e: Event, pools: Pools)
    requires pools.Valid() && Outside(e, pools)
    requires AddressesRight(st.users, st.taken, pools) && PrefixesConserved(st, pools)
    ensures LeakedOrConserved(Step(st, e, pools), DropsPrefix(st, e, pools), pools)
  {
    if Try(st, e, pools).Some? {
      match e
      case Create(_, _, _, _, _, _, _) => PrefixesKeptByCreate(st, e, pools);
      case SetRoles(_, _, _) => PrefixesAfterSetRoles(st, e, pools);
      case Ban(_, _) => PrefixesAfterBan(st, e, pools);
      case Delete(_, _) => PrefixesAfterDelete(st, e, pools);
      case SetLimits(_, _) =>
    }
  }

  // --- a leak stays ---

  /** An instruction touches no account but the one it names. */
  lemma OthersUntouched(st: State, e: Event, pools: Pools)
    ensures
      var next := Step(st, e, pools);
      forall k :: k != e.key ==>
        (k in next.users <==> k in st.users) && (k in st.users ==> next.users[k] == st.users[k])
  {
  }

  lemma FirstAddressElsewhere(a: Account, address: Ip, blocks: nat, taken: Taken, pools: Pools, ip: Ip)
    requires pools.Valid() && a.clientIp !in pools.prefixes && FirstAddress(a, address, blocks, taken, pools).Some?
    requires ip in taken.prefixes && ip in pools.prefixes
    ensures
      var given := FirstAddress(a, address, blocks, taken, pools).value;
      ip in given.taken.prefixes && given.account.dzIp != ip
  {
  }

  lemma NotHeldAgain(st: State, e: Event, pools: Pools, ip: Ip)
    requires pools.Valid() && Outside(e, pools) && AddressesRight(st.users, st.taken, pools)
    requires ip in st.taken.prefixes && ip in pools.prefixes && !Held(st.users, ip)
    ensures ip in Step(st, e, pools).taken.prefixes && !Held(Step(st, e, pools).users, ip)
  {
    var next := Step(st, e, pools);
    assert forall k :: k in st.users ==> st.users[k].dzIp != ip;
    OthersUntouched(st, e, pools);
    if Try(st, e, pools).Some? {
      match e
      case Create(_, _, _, _, _, blocks, address) =>
        FirstAddressElsewhere(NewAccount(e), address, blocks, st.taken, pools, ip);
      case SetRoles(_, _, _) => ChangedElsewhere(st, e, pools, ip);
      case Ban(_, _) =>
      case Delete(_, _) =>
      case SetLimits(_, _) =>
    }
    assert e.key in next.users ==> next.users[e.key].dzIp != ip;
  }

  lemma ChangedElsewhere(st: State, e: Event, pools: Pools, ip: Ip)
    requires pools.Valid() && AddressesRight(st.users, st.taken, pools)
    requires ip in st.taken.prefixes && ip in pools.prefixes && !Held(st.users, ip)
    requires e.SetRoles? && TrySetRoles(st, e, pools).Some?
    ensures
      var next := TrySetRoles(st, e, pools).value;
      ip in next.taken.prefixes && next.users[e.key].dzIp != ip
  {
    assert AccountValid(st.users[e.key], pools);
    ChangedPrefix(st.users[e.key], e.change, e.address, st.taken, pools);
  }

  /** No user instruction hands a leaked prefix address out again, or gives it back. */
  lemma LeakStays(st: State, e: Event, pools: Pools)
    requires pools.Valid() && Outside(e, pools) && AddressesRight(st.users, st.taken, pools) && PrefixLeaked(st, pools)
    ensures PrefixLeaked(Step(st, e, pools), pools)
  {
    var ip :| ip in st.taken.prefixes && ip in pools.prefixes.Keys && !Held(st.users, ip);
    var next := Step(st, e, pools);
    NotHeldAgain(st, e, pools, ip);
    assert ip in next.taken.prefixes && ip in pools.prefixes.Keys && !Held(next.users, ip);
  }

  // --- runs ---

  /** No instruction of the run drops a prefix address. */
  predicate NeverDrops(st: State, events: seq<Event>, pools: Pools) {
    events == []
    || (var init := events[..|events| - 1];
        NeverDrops(st, init, pools) && !DropsPrefix(Run(st, init, pools), events[|events| - 1], pools))
  }

  /** A run of user instructions conserves the prefix addresses if and only if none of them drops
      one; otherwise one is leaked, and stays so to the end of the run. */
  lemma {:induction false} RunConservesPrefixesIff(st: State, events: seq<Event>, pools: Pools)
    requires pools.Valid() && Initial(st)
    requires forall e :: e in events ==> Outside(e, pools)
    ensures
      var last := Run(st, events, pools);
      && (PrefixesConserved(last, pools) <==> NeverDrops(st, events, pools))
      && (PrefixLeaked(last, pools) <==> !NeverDrops(st, events, pools))
  {
    if events != [] {
      var init, e := events[..|events| - 1], events[|events| - 1];
      RunConservesPrefixesIff(st, init, pools);
      RunIsRight(st, init, pools);
      if NeverDrops(st, init, pools) {
        PrefixesAfter(Run(st, init, pools), e, pools);
      } else {
        LeakStays(Run(st, init, pools), e, pools);
      }
    }
  }

  // --- two runs that leak ---

  lemma RunSnoc(st: State, events: seq<Event>, e: Event, pools: Pools)
    ensures Run(st, events + [e], pools) == Step(Run(st, events, pools), e, pools)
  {
    assert (events + [e])[..|events + [e]| - 1] == events;
  }

  lemma RunTwo(st: State, first: Event, second: Event, pools: Pools)
    ensures Run(st, [first, second], pools) == Step(Step(st, first, pools), second, pools)
  {
    assert [first, second] == [first] + [second];
    RunSnoc(st, [first], second, pools);
    assert [first] == [] + [first];
    RunSnoc(st, [], first, pools);
  }

  /** Let one user on a device. */
  function Unlock(device: Pubkey): Event {
    SetLimits(device, Limits(Some(1), None, None, None))
  }

  /** Open a new device to users and create one with a prefix address. */
  function Opening(key: Pubkey, device: Pubkey, clientIp: Ip, blocks: nat, address: Ip): seq<Event> {
    [Unlock(device), Create(key, IBRLWithAllocatedIP, clientIp, device, None, blocks, address)]
  }

  /** A new device as it is created: locked, and empty. */
  predicate IsNewDevice(d: DeviceCounts) {
    d == DeviceCounts(0, 0, 0, 0, 0, 0, 0, 0, 0)
  }

  lemma Ready(st: State, key: Pubkey, device: Pubkey, clientIp: Ip, blocks: nat, address: Ip, pools: Pools)
    requires Initial(st) && device in st.devices && IsNewDevice(st.devices[device])
    requires pools.InBlocks(address, device, blocks)
    ensures
      var ready := Run(st, Opening(key, device, clientIp, blocks, address), pools);
      && ready.users == map[key := Account(IBRLWithAllocatedIP, clientIp, device, address, false, false, [], [])]
      && ready.groups == st.groups && ready.taken == Taken({}, {address}) && device in ready.devices
  {
    var create := Create(key, IBRLWithAllocatedIP, clientIp, device, None, blocks, address);
    RunTwo(st, Unlock(device), create, pools);
    Unlocked(st, device, pools);
    FirstUser(Step(st, Unlock(device), pools), create, pools);
  }

  lemma Unlocked(st: State, device: Pubkey, pools: Pools)
    requires device in st.devices && IsNewDevice(st.devices[device])
    ensures
      Step(st, Unlock(device), pools) == st.(devices := st.devices[device := DeviceCounts(0, 0, 1, 0, 0, 0, 0, 0, 0)])
  {
  }

  lemma FirstUser(st: State, e: Event, pools: Pools)
    requires e.Create? && e.userType == IBRLWithAllocatedIP && e.join.None?
    requires st.users == map[] && st.taken == Taken({}, {})
    requires e.device in st.devices && st.devices[e.device] == DeviceCounts(0, 0, 1, 0, 0, 0, 0, 0, 0)
    requires pools.InBlocks(e.address, e.device, e.blocks)
    ensures
      var next := Step(st, e, pools);
      && next.users == map[e.key := Account(IBRLWithAllocatedIP, e.clientIp, e.device, e.address, false, false, [], [])]
      && next.groups == st.groups && next.taken == Taken({}, {e.address}) && e.device in next.devices
  {
    assert AddU16(0, 0) == 0;
    assert st.devices[e.device].HasRoom(Unicast);
    var a := NewAccount(e);
    assert st.taken.prefixes + {e.address} == {e.address};
    assert FirstAddress(a, e.address, e.blocks, st.taken, pools)
        == Some(Addressed(a.(dzIp := e.address), Taken({}, {e.address})));
  }

  /** A user with a prefix address publishes to a group and stops: its address is leaked. */
  lemma UnpublishLeaks(st: State, key: Pubkey, device: Pubkey, clientIp: Ip, address: Ip, group: Pubkey,
                       other: Ip, pools: Pools)
    requires pools.Valid() && Initial(st) && device in st.devices && IsNewDevice(st.devices[device])
    requires group in st.groups && pools.InBlocks(address, device, 1) && clientIp !in pools.prefixes
    ensures
      var events := Opening(key, device, clientIp, 1, address)
                    + [SetRoles(key, Join(group, true, false), other)]
                    + [SetRoles(key, Join(group, false, false), other)];
      PrefixLeaked(Run(st, events, pools), pools)
  {
    var opening := Opening(key, device, clientIp, 1, address);
    var publish, unpublish := SetRoles(key, Join(group, true, false), other),
                              SetRoles(key, Join(group, false, false), other);
    Ready(st, key, device, clientIp, 1, address, pools);
    RunSnoc(st, opening, publish, pools);
    RunSnoc(st, opening + [publish], unpublish, pools);
    var ready := Run(st, opening, pools);
    var published := Step(ready, publish, pools);
    PublishKeepsPrefix(ready.users[key], group, other, ready.taken, pools);
    assert published.users == map[key := ready.users[key].(publishers := [group])];
    assert published.taken == ready.taken;
    UnpublishForgetsPrefix(published.users[key], group, other, published.taken, pools);
    var last := Step(published, unpublish, pools);
    assert last.users[key].dzIp == clientIp && last.taken.prefixes == {address};
    assert !Held(last.users, address);
  }

  lemma PublishKeepsPrefix(a: Account, group: Pubkey, other: Ip, taken: Taken, pools: Pools)
    requires a.HasOwnAddress() && a.publishers == [] && a.subscribers == []
    ensures Changed(a, Join(group, true, false), other, taken, pools)
            == Some(Addressed(a.(publishers := [group]), taken))
  {
    assert AssignRole([], group, true) == [group] && AssignRole([], group, false) == [];
  }

  lemma UnpublishForgetsPrefix(a: Account, group: Pubkey, other: Ip, taken: Taken, pools: Pools)
    requires a.HasOwnAddress() && a.publishers == [group] && a.subscribers == []
    ensures Changed(a, Join(group, false, false), other, taken, pools)
         == Some(Addressed(a.(publishers := [], dzIp := a.clientIp), taken.(block := taken.block - {a.dzIp})))
  {
    assert [group][1..] == [] && !IsNot(group)(group);
    assert Filter(IsNot(group), [group]) == Filter(IsNot(group), []);
  }

  /** A user with an address of the second prefix block is deleted by an instruction that names only
      the first: its address is leaked. */
  lemma ShortDeleteLeaks(st: State, key: Pubkey, device: Pubkey, clientIp: Ip, address: Ip,
                         publisherBlock: bool, pools: Pools)
    requires pools.Valid() && Initial(st) && device in st.devices && IsNewDevice(st.devices[device])
    requires address in pools.prefixes && pools.prefixes[address] == PrefixBlock(device, 1)
    ensures
      var events := Opening(key, device, clientIp, 2, address) + [Delete(key, Named(publisherBlock, 1))];
      PrefixLeaked(Run(st, events, pools), pools)
  {
    var opening := Opening(key, device, clientIp, 2, address);
    var delete := Delete(key, Named(publisherBlock, 1));
    Ready(st, key, device, clientIp, 2, address, pools);
    RunSnoc(st, opening, delete, pools);
    var last := Step(Run(st, opening, pools), delete, pools);
    assert last.users == map[] && last.taken.prefixes == {address};
    assert !Held(last.users, address);
  }
}
