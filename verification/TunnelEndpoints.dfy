/** The sentinel's choice of a tunnel endpoint for a new user, and what it keeps true over
    runs of creates and deletes. */
module TunnelEndpoints {
  import opened Basics
  import opened DzLedger

  datatype DeviceEndpoints = DeviceEndpoints(publicIp: Ip, userTunnelEndpoints: seq<Ip>)

  type Endpoints = map<Pubkey, DeviceEndpoints>

  function SelectTunnelEndpoint(publicIp: Ip, userTunnelEndpoints: seq<Ip>, excludeIps: seq<Ip>): Ip {
    if userTunnelEndpoints != [] then
      if userTunnelEndpoints[0] !in excludeIps then userTunnelEndpoints[0]
      else SelectTunnelEndpoint(publicIp, userTunnelEndpoints[1..], excludeIps)
    else if publicIp != UNSPECIFIED && publicIp !in excludeIps then publicIp
    else UNSPECIFIED
  }

  /** The endpoint of a user's tunnel; a legacy user without one goes through its device's
      public IP, if the device is known. */
  function Resolved(user: DzUser, devices: Endpoints): Ip {
    if user.tunnelEndpoint != UNSPECIFIED then user.tunnelEndpoint
    else if user.devicePk in devices then devices[user.devicePk].publicIp
    else UNSPECIFIED
  }

  function InUseTunnelEndpoints(users: seq<DzUser>, clientIp: Ip, devices: Endpoints): seq<Ip> {
    if users == [] then []
    else
      var before, last := InUseTunnelEndpoints(users[..|users| - 1], clientIp, devices), users[|users| - 1];
      if last.clientIp == clientIp && Resolved(last, devices) != UNSPECIFIED then before + [Resolved(last, devices)]
      else before
  }

  function SelectForUser(devicePk: Pubkey, clientIp: Ip, users: seq<DzUser>, devices: Endpoints): Ip {
    if devicePk !in devices then UNSPECIFIED
    else SelectTunnelEndpoint(devices[devicePk].publicIp, devices[devicePk].userTunnelEndpoints,
                              InUseTunnelEndpoints(users, clientIp, devices))
  }

  // --- which endpoints a device offers ---

  /** The endpoints a device can hand out, in order of preference: its user tunnel endpoints up
      to the first unspecified one, and the public IP when all of them are specified. */
  function Offered(publicIp: Ip, userTunnelEndpoints: seq<Ip>): seq<Ip> {
    if userTunnelEndpoints == [] then if publicIp == UNSPECIFIED then [] else [publicIp]
    else if userTunnelEndpoints[0] == UNSPECIFIED then []
    else [userTunnelEndpoints[0]] + Offered(publicIp, userTunnelEndpoints[1..])
  }

  lemma {:induction false} OfferedAreSpecified(publicIp: Ip, utes: seq<Ip>)
    ensures UNSPECIFIED !in Offered(publicIp, utes)
    ensures UNSPECIFIED !in utes ==>
              forall ip :: ip in Offered(publicIp, utes) <==> ip != UNSPECIFIED && (ip in utes || ip == publicIp)
  {
    if utes != [] {
      OfferedAreSpecified(publicIp, utes[1..]);
      assert utes == [utes[0]] + utes[1..];
    }
  }

  /** The user's tunnel runs through `ip`: its own endpoint, or, for a legacy user without one, the
      public IP of its device. */
  ghost predicate RunsThrough(u: DzUser, ip: Ip, devices: Endpoints) {
    && ip != 0
    && if u.tunnelEndpoint != 0 then ip == u.tunnelEndpoint
       else u.devicePk in devices && ip == devices[u.devicePk].publicIp
  }

  lemma {:induction false} InUseMembers(users: seq<DzUser>, clientIp: Ip, devices: Endpoints)
    ensures forall ip :: ip in InUseTunnelEndpoints(users, clientIp, devices) <==>
                         exists u <- users :: u.clientIp == clientIp && RunsThrough(u, ip, devices)
  {
    if users != [] {
      InUseMembers(users[..|users| - 1], clientIp, devices);
      assert users == users[..|users| - 1] + [users[|users| - 1]];
    }
  }

  /** Selection returns the first offered endpoint that is not excluded, and the unspecified
      address exactly when there is none. */
  lemma {:induction false} SelectsFirstFree(publicIp: Ip, utes: seq<Ip>, excludeIps: seq<Ip>)
    requires UNSPECIFIED !in excludeIps
    ensures
      var free := Filter(NotIn(excludeIps), Offered(publicIp, utes));
      SelectTunnelEndpoint(publicIp, utes, excludeIps) == if free == [] then UNSPECIFIED else free[0]
  {
    if utes != [] && utes[0] in excludeIps {
      SelectsFirstFree(publicIp, utes[1..], excludeIps);
      assert Offered(publicIp, utes)[1..] == Offered(publicIp, utes[1..]);
    } else if utes == [] && publicIp != UNSPECIFIED {
      assert [publicIp][1..] == [];
    }
  }

  /** The same on the addresses themselves: the first user tunnel endpoint that is not excluded, else
      the public IP unless that is excluded or unspecified. */
  lemma {:induction false} SelectsByPreference(publicIp: Ip, utes: seq<Ip>, excludeIps: seq<Ip>)
    ensures
      var ep := SelectTunnelEndpoint(publicIp, utes, excludeIps);
      || (exists i :: 0 <= i < |utes| && ep == utes[i] && ep !in excludeIps
                      && forall j :: 0 <= j < i ==> utes[j] in excludeIps)
      || ((forall u <- utes :: u in excludeIps) && ep == if publicIp in excludeIps then 0 else publicIp)
  {
    if utes != [] && utes[0] in excludeIps {
      var rest := utes[1..];
      SelectsByPreference(publicIp, rest, excludeIps);
      var ep := SelectTunnelEndpoint(publicIp, rest, excludeIps);
      if i :| 0 <= i < |rest| && ep == rest[i] && ep !in excludeIps
              && forall j :: 0 <= j < i ==> rest[j] in excludeIps {
        assert utes[i + 1] == rest[i];
        forall j | 0 <= j < i + 1 ensures utes[j] in excludeIps {
          assert j > 0 ==> rest[j - 1] == utes[j];
        }
      }
    }
  }

  /** Offered endpoints of a device that the client does not use. */
  function FreeFor(devicePk: Pubkey, clientIp: Ip, users: seq<DzUser>, devices: Endpoints): set<Ip> {
    if devicePk !in devices then {}
    else Elements(Offered(devices[devicePk].publicIp, devices[devicePk].userTunnelEndpoints))
         - Elements(InUseTunnelEndpoints(users, clientIp, devices))
  }

  /** On a device without unspecified endpoints, the free ones are its endpoints no tunnel of the client
      runs through. */
  lemma FreeForIs(devicePk: Pubkey, clientIp: Ip, users: seq<DzUser>, devices: Endpoints)
    requires devicePk in devices && 0 !in devices[devicePk].userTunnelEndpoints
    ensures forall ip :: ip in FreeFor(devicePk, clientIp, users, devices) <==>
              && ip != 0 && (ip in devices[devicePk].userTunnelEndpoints || ip == devices[devicePk].publicIp)
              && forall u <- users :: u.clientIp == clientIp ==> !RunsThrough(u, ip, devices)
  {
    InUseMembers(users, clientIp, devices);
    OfferedAreSpecified(devices[devicePk].publicIp, devices[devicePk].userTunnelEndpoints);
  }

  lemma SelectForUserIsFree(devicePk: Pubkey, clientIp: Ip, users: seq<DzUser>, devices: Endpoints)
    ensures
      var ep, free := SelectForUser(devicePk, clientIp, users, devices), FreeFor(devicePk, clientIp, users, devices);
      if free == {} then ep == UNSPECIFIED else ep in free
    ensures UNSPECIFIED !in FreeFor(devicePk, clientIp, users, devices)
  {
    if devicePk in devices {
      var d := devices[devicePk];
      var inUse := InUseTunnelEndpoints(users, clientIp, devices);
      InUseMembers(users, clientIp, devices);
      SelectsFirstFree(d.publicIp, d.userTunnelEndpoints, inUse);
      OfferedAreSpecified(d.publicIp, d.userTunnelEndpoints);
      FilterMembers(NotIn(inUse), Offered(d.publicIp, d.userTunnelEndpoints));
      var kept := Filter(NotIn(inUse), Offered(d.publicIp, d.userTunnelEndpoints));
      assert kept != [] ==> kept[0] in kept;
      assert forall ip :: ip in FreeFor(devicePk, clientIp, users, devices) <==> ip in kept;
    }
  }

  /** An endpoint that is handed out is one of the device's, and no tunnel of the client runs through
      it, legacy users included; none is handed out only if every one of the device's is in use, or one
      of its endpoints is left unspecified. */
  lemma SelectedIsUnused(devicePk: Pubkey, clientIp: Ip, users: seq<DzUser>, devices: Endpoints)
    ensures
      var ep := SelectForUser(devicePk, clientIp, users, devices);
      if ep != 0 then
        && devicePk in devices
        && (ep == devices[devicePk].publicIp || ep in devices[devicePk].userTunnelEndpoints)
        && forall u <- users :: u.clientIp == clientIp ==> !RunsThrough(u, ep, devices)
      else
        devicePk in devices && 0 !in devices[devicePk].userTunnelEndpoints ==>
          forall ip :: ip in devices[devicePk].userTunnelEndpoints || (ip == devices[devicePk].publicIp && ip != 0) ==>
            exists u <- users :: u.clientIp == clientIp && RunsThrough(u, ip, devices)
  {
    InUseMembers(users, clientIp, devices);
    if devicePk in devices {
      SelectsByPreference(devices[devicePk].publicIp, devices[devicePk].userTunnelEndpoints,
                          InUseTunnelEndpoints(users, clientIp, devices));
    }
  }

  /** In particular, never the public IP a legacy user of the client goes through. */
  lemma LegacyEndpointIsNotGiven(devicePk: Pubkey, u: DzUser, users: seq<DzUser>, devices: Endpoints)
    requires u in users && u.tunnelEndpoint == UNSPECIFIED
    requires u.devicePk in devices && devices[u.devicePk].publicIp != UNSPECIFIED
    ensures SelectForUser(devicePk, u.clientIp, users, devices) != devices[u.devicePk].publicIp
  {
    SelectedIsUnused(devicePk, u.clientIp, users, devices);
    assert RunsThrough(u, devices[u.devicePk].publicIp, devices);
  }

  // --- runs ---

  /** A request to create `user` (its endpoint is filled in), or the deletion of a user. */
  datatype Event = Create(user: DzUser) | Delete(index: nat)

  /** Creating aborts when no endpoint is available. */
  function Created(users: seq<DzUser>, user: DzUser, devices: Endpoints): seq<DzUser> {
    var ep := SelectForUser(user.devicePk, user.clientIp, users, devices);
    if ep == UNSPECIFIED then users else users + [user.(tunnelEndpoint := ep)]
  }

  function Step(users: seq<DzUser>, event: Event, devices: Endpoints): seq<DzUser> {
    match event
    case Create(user) => Created(users, user, devices)
    case Delete(i) => if i < |users| then users[..i] + users[i + 1..] else users
  }

  function Run(users: seq<DzUser>, events: seq<Event>, devices: Endpoints): seq<DzUser> {
    if events == [] then users
    else Step(Run(users, events[..|events| - 1], devices), events[|events| - 1], devices)
  }

  /** No two tunnels of one client run through the same endpoint. */
  ghost predicate EndpointsDistinct(users: seq<DzUser>, devices: Endpoints) {
    forall i, j, ip ::
      0 <= i < j < |users| && users[i].clientIp == users[j].clientIp ==>
      !(RunsThrough(users[i], ip, devices) && RunsThrough(users[j], ip, devices))
  }

  lemma CreatedKeepsDistinct(users: seq<DzUser>, user: DzUser, devices: Endpoints)
    requires EndpointsDistinct(users, devices)
    ensures EndpointsDistinct(Created(users, user, devices), devices)
  {
    var ep := SelectForUser(user.devicePk, user.clientIp, users, devices);
    SelectedIsUnused(user.devicePk, user.clientIp, users, devices);
    assert forall i :: 0 <= i < |users| ==> users[i] in users;
  }

  /** Over every run of creates and deletes, across clients and devices and including legacy
      users, the users of one client stay on pairwise distinct endpoints. */
  lemma {:induction false} RunKeepsDistinct(users: seq<DzUser>, events: seq<Event>, devices: Endpoints)
    requires EndpointsDistinct(users, devices)
    ensures EndpointsDistinct(Run(users, events, devices), devices)
  {
    if events != [] {
      var before := Run(users, events[..|events| - 1], devices);
      RunKeepsDistinct(users, events[..|events| - 1], devices);
      match events[|events| - 1]
      case Create(user) => CreatedKeepsDistinct(before, user, devices);
      case Delete(i) =>
        if i < |before| {
          var after := before[..i] + before[i + 1..];
          assert forall k :: 0 <= k < |after| ==> after[k] == before[if k < i then k else k + 1];
        }
    }
  }

  // --- one client, one device, again and again ---

  /** The endpoints `n` successive creates of the same user get. */
  function Repeated(users: seq<DzUser>, user: DzUser, devices: Endpoints, n: nat): seq<Ip>
    decreases n
  {
    if n == 0 then []
    else [SelectForUser(user.devicePk, user.clientIp, users, devices)]
         + Repeated(Created(users, user, devices), user, devices, n - 1)
  }

  lemma CreatedUsesUpOne(users: seq<DzUser>, user: DzUser, devices: Endpoints)
    ensures
      var ep := SelectForUser(user.devicePk, user.clientIp, users, devices);
      var free := FreeFor(user.devicePk, user.clientIp, users, devices);
      FreeFor(user.devicePk, user.clientIp, Created(users, user, devices), devices)
      == if ep == UNSPECIFIED then free else free - {ep}
  {
    var ep := SelectForUser(user.devicePk, user.clientIp, users, devices);
    if ep != UNSPECIFIED {
      var created := user.(tunnelEndpoint := ep);
      assert (users + [created])[..|users + [created]| - 1] == users;
      assert InUseTunnelEndpoints(users + [created], user.clientIp, devices) ==
             InUseTunnelEndpoints(users, user.clientIp, devices) + [ep];
    }
  }

  /** Repeated creates on one device use up its free endpoints one by one: the first as many
      requests as there are free endpoints get pairwise distinct ones, every later request is
      refused. */
  lemma {:induction false} RepeatedUsesUpFree(users: seq<DzUser>, user: DzUser, devices: Endpoints, n: nat)
    ensures
      var got := Repeated(users, user, devices, n);
      |got| == n && UsesUp(got, FreeFor(user.devicePk, user.clientIp, users, devices))
    decreases n
  {
    if n > 0 {
      var ep, after := RepeatedOnce(users, user, devices, n);
      RepeatedUsesUpFree(after, user, devices, n - 1);
      OneThenRest(ep, Repeated(after, user, devices, n - 1), FreeFor(user.devicePk, user.clientIp, users, devices));
    }
  }

  /** The first of `n` creates gets a free endpoint if there is one, and takes it out of the free
      ones. */
  lemma RepeatedOnce(users: seq<DzUser>, user: DzUser, devices: Endpoints, n: nat)
    returns (ep: Ip, after: seq<DzUser>)
    requires n > 0
    ensures Repeated(users, user, devices, n) == [ep] + Repeated(after, user, devices, n - 1)
    ensures
      var free := FreeFor(user.devicePk, user.clientIp, users, devices);
      && UNSPECIFIED !in free
      && (if free == {} then ep == UNSPECIFIED else ep in free)
      && FreeFor(user.devicePk, user.clientIp, after, devices) == if ep == UNSPECIFIED then free else free - {ep}
  {
    ep := SelectForUser(user.devicePk, user.clientIp, users, devices);
    after := Created(users, user, devices);
    SelectForUserIsFree(user.devicePk, user.clientIp, users, devices);
    CreatedUsesUpOne(users, user, devices);
  }

  /** `got` are distinct endpoints of `free`, as many as there are, then refusals. */
  ghost predicate UsesUp(got: seq<Ip>, free: set<Ip>) {
    && (forall k :: 0 <= k < |got| ==> (got[k] != UNSPECIFIED <==> k < |free|))
    && (forall k :: 0 <= k < |got| && got[k] != UNSPECIFIED ==> got[k] in free)
    && (forall j, k :: 0 <= j < k < |got| && got[j] != UNSPECIFIED ==> got[j] != got[k])
  }

  lemma OneThenRest(ep: Ip, rest: seq<Ip>, free: set<Ip>)
    requires if free == {} then ep == UNSPECIFIED else ep in free
    requires UNSPECIFIED !in free
    requires UsesUp(rest, if ep == UNSPECIFIED then free else free - {ep})
    ensures UsesUp([ep] + rest, free)
  {
    var got := [ep] + rest;
    assert forall k :: 1 <= k < |got| ==> got[k] == rest[k - 1];
    assert ep != UNSPECIFIED ==> |free - {ep}| == |free| - 1;
  }
}
