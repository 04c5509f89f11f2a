/** How `connect` turns latency data and the client's existing users into a device and a
    tunnel endpoint. */
module DeviceSelection {
  import opened Basics
  import opened Onchain
  import opened StableSort
  import opened Latency
  import opened LatencySpec

  // --- endpoints already used by the client ---

  /** The endpoint a user's tunnel runs through; a legacy user without one goes through its
      device's public IP, if that device is known. */
  function ResolvedEndpoint(user: User, devices: Devices): Ip {
    if user.HasTunnelEndpoint() then user.tunnelEndpoint
    else if user.devicePk in devices then devices[user.devicePk].publicIp
    else UNSPECIFIED
  }

  /** The user has a tunnel, and it runs through `ip`: its own endpoint, or, for a legacy user without
      one, the public IP of its device. */
  ghost predicate RunsThrough(u: User, ip: Ip, devices: Devices) {
    && u.tunnelId != 0 && ip != 0
    && if u.tunnelEndpoint != 0 then ip == u.tunnelEndpoint
       else u.devicePk in devices && ip == devices[u.devicePk].publicIp
  }

  /** Endpoints of the client's tunnels; `users` is the user map in iteration order. */
  function ExcludeIps(users: seq<User>, clientIp: Ip, devices: Devices): (ips: seq<Ip>)
    ensures forall ip :: ip in ips <==> exists u <- users :: u.clientIp == clientIp && RunsThrough(u, ip, devices)
  {
    if users == [] then []
    else
      var rest := ExcludeIps(users[1..], clientIp, devices);
      assert users == [users[0]] + users[1..];
      var ip := ResolvedEndpoint(users[0], devices);
      if users[0].clientIp == clientIp && users[0].HasUnicastTunnel() && ip != UNSPECIFIED then [ip] + rest else rest
  }

  // --- the choice ---

  /** The `--device` option: absent, a public key, or a code to look up. */
  datatype DeviceRequest = Auto | ByKey(pk: Pubkey) | ByCode(code: Code)

  datatype ChoiceError =
    | Selecting(error: SelectError)
    | Retrieving(cause: RetrieveError)
    | DeviceNotFound
    | DeviceUnreadable
    | DeviceFull

  datatype Choice = Chosen(pk: Pubkey, device: Device, endpoint: Ip) | ChoiceFailed(error: ChoiceError)

  function PublicIpOf(devices: Devices, pk: Pubkey): Ip {
    if pk in devices then devices[pk].publicIp else UNSPECIFIED
  }

  /** The device the request asks for, or the one automatic selection picks from the first
      measurement. */
  predicate IsRequested(request: DeviceRequest, first: Poll, devices: Devices, excludeIps: seq<Ip>, pk: Pubkey) {
    match request
    case ByKey(key) => pk == key
    case ByCode(code) => pk in devices && devices[pk].code == code
    case Auto =>
      && first.Polled? && first.ready
      && var picked := BestOf(first.results, devices, true, None, excludeIps);
         picked.Selected? && picked.record.device == Encoded(pk)
  }

  /** Automatic selection from the first measurement fails with this error. */
  ghost predicate FailsWith(e: SelectError, first: Poll, devices: Devices, excludeIps: seq<Ip>) {
    if first.PollFailed? then e == Retrieve(DaemonError)
    else if !first.ready then e == Retrieve(TimedOut)
    else
      match BestOf(first.results, devices, true, None, excludeIps)
      case SelectFailed(why) => e == why
      case Selected(r) => r.device.Malformed? && e == BadKey
  }

  /** Each error is returned only for its cause. */
  ghost predicate Explains(error: ChoiceError, request: DeviceRequest, first: Poll, second: Poll, devices: Devices,
                           accounts: Devices, excludeIps: seq<Ip>)
  {
    match error
    case DeviceNotFound => request.ByCode? && forall k :: k in devices ==> devices[k].code != request.code
    case Selecting(e) =>
      request.Auto? && FailsWith(e, first, devices, excludeIps)
      && forall pk :: !IsRequested(request, first, devices, excludeIps, pk)
    case Retrieving(e) =>
      if second.PollFailed? then e == DaemonError
      else if second.ready then Ranking(second.results, devices, false) == RetrieveFailed(e)
      else e == TimedOut
    case DeviceUnreadable => exists pk :: IsRequested(request, first, devices, excludeIps, pk) && pk !in accounts
    case DeviceFull =>
      && !request.Auto?
      && exists pk :: && IsRequested(request, first, devices, excludeIps, pk)
                      && pk in accounts && !MayTakeUser(accounts[pk])
  }

  /** Pick a device, then an endpoint on it from a second measurement. Automatic selection
      polls the daemon twice (`first`, `second`); an explicit device polls it once (`second`).
      `accounts` is what reading a single device account returns. */
  method FindOrCreateDevice(request: DeviceRequest, first: Session, second: Session, devices: Devices,
                            accounts: Devices, excludeIps: seq<Ip>)
    returns (choice: Choice)
    requires first.Valid() && second.Valid()
    ensures choice.Chosen? ==>
              && IsRequested(request, first.Settled(), devices, excludeIps, choice.pk)
              && choice.pk in accounts && choice.device == accounts[choice.pk]
              && (!request.Auto? ==> MayTakeUser(choice.device))
              && second.Settled().Polled? && second.Settled().ready
              && var ranking := Ranking(second.Settled().results, devices, false);
                 && ranking.Retrieved?
                 && choice.endpoint
                    == BestEndpoint(ranking.latencies, Encoded(choice.pk),
                                    if choice.pk in devices then devices[choice.pk].publicIp else UNSPECIFIED,
                                    excludeIps)
    ensures choice.ChoiceFailed? ==>
              Explains(choice.error, request, first.Settled(), second.Settled(), devices, accounts, excludeIps)
  {
    var pk: Pubkey;
    match request {
      case ByKey(key) =>
        pk := key;
      case ByCode(code) =>
        if !exists k :: k in devices && devices[k].code == code {
          return ChoiceFailed(DeviceNotFound);
        }
        pk :| pk in devices && devices[pk].code == code;
      case Auto =>
        var selection := BestLatency(first, devices, true, None, excludeIps);
        if selection.SelectFailed? {
          return ChoiceFailed(Selecting(selection.error));
        }
        if selection.record.device.Malformed? {
          return ChoiceFailed(Selecting(BadKey));
        }
        pk := selection.record.device.pk;
    }
    assert IsRequested(request, first.Settled(), devices, excludeIps, pk);
    var retrieval := RetrieveLatencies(second, devices, false);
    if retrieval.RetrieveFailed? {
      return ChoiceFailed(Retrieving(retrieval.error));
    }
    var endpoint := SelectTunnelEndpoint(retrieval.latencies, Encoded(pk), PublicIpOf(devices, pk), excludeIps);
    if pk !in accounts {
      return ChoiceFailed(DeviceUnreadable);
    }
    var device := accounts[pk];
    if !request.Auto? && !device.IsEligibleForProvisioning() {
      return ChoiceFailed(DeviceFull);
    }
    return Chosen(pk, device, endpoint);
  }

  // --- is the endpoint free? ---

  /** The chosen endpoint is never one of the excluded ones, unless it is the unspecified
      address; and it is specified exactly when the best usable record is, or, with no usable
      record, when the public IP is specified and not excluded. */
  lemma EndpointIsFree(latencies: seq<LatencyRecord>, device: KeyText, publicIp: Ip,
                       excludeIps: seq<Ip>)
    ensures
      var endpoint := BestEndpoint(latencies, device, publicIp, excludeIps);
      var usable := Filter(Usable(device, excludeIps), latencies);
      && (endpoint == UNSPECIFIED || endpoint !in excludeIps)
      && (endpoint != UNSPECIFIED <==>
          if usable != [] then Fastest(usable).deviceIp != Some(UNSPECIFIED)
          else publicIp != UNSPECIFIED && publicIp !in excludeIps)
  {
    FilterMembers(Usable(device, excludeIps), latencies);
  }

  /** Automatic selection ends on a device that is activated, eligible and has an endpoint the
      client does not use yet. */
  lemma SelectedDeviceHasRoom(results: seq<LatencyRecord>, devices: Devices, excludeIps: seq<Ip>)
    requires BestOf(results, devices, true, None, excludeIps).Selected?
    ensures
      var record := BestOf(results, devices, true, None, excludeIps).record;
      && record in results && record.device.Encoded? && record.device.pk in devices
      && MayTakeUser(devices[record.device.pk])
      && HasSpare(devices[record.device.pk], excludeIps)
  {
    var r := BestOf(results, devices, true, None, excludeIps).record;
    SelectedAccepted(results, devices, excludeIps);
    ContendersAre(results, devices, excludeIps);
    assert Contends(r, results, devices, excludeIps);
  }

  lemma SelectedAccepted(results: seq<LatencyRecord>, devices: Devices, excludeIps: seq<Ip>)
    requires BestOf(results, devices, true, None, excludeIps).Selected?
    ensures
      var r := BestOf(results, devices, true, None, excludeIps).record;
      r in Contenders(results, devices, excludeIps) && Acceptable(devices, true, r)
  {
    BestOfIsLoopChoice(results, devices, true, None, excludeIps);
    LoopChoiceMembers(Contenders(results, devices, excludeIps), devices, true, None);
  }

  /** What automatic selection looks at: the eligible devices with capacity for the user's type. */
  function Considered(all: Devices, hasCapacity: Device -> bool): Devices {
    map k | k in all && all[k].IsEligibleForProvisioning() && hasCapacity(all[k]) :: all[k]
  }

  /** The endpoint returned for `pk` when the second measurement answers `second`. */
  function Measured(second: seq<LatencyRecord>, devices: Devices, pk: Pubkey, excludeIps: seq<Ip>): Ip {
    var ranking := Ranking(second, devices, false);
    if ranking.RetrieveFailed? then UNSPECIFIED
    else BestEndpoint(ranking.latencies, Encoded(pk), PublicIpOf(devices, pk), excludeIps)
  }

  /** None of the client's users with a tunnel resolves to `endpoint`. */
  ghost predicate IsFresh(endpoint: Ip, users: seq<User>, clientIp: Ip, devices: Devices) {
    forall u <- users :: u.clientIp == clientIp ==> !RunsThrough(u, endpoint, devices)
  }

  /** A legacy user of the client, with a tunnel, on a device the filter dropped. */
  predicate IsHidden(u: User, clientIp: Ip, all: Devices, devices: Devices) {
    && u.clientIp == clientIp && u.tunnelId != 0 && u.tunnelEndpoint == 0
    && u.devicePk in all && u.devicePk !in devices
  }

  /** If some record may supply an endpoint, the endpoint is that of the fastest such record. */
  lemma MeasuredEndpoint(second: seq<LatencyRecord>, devices: Devices, pk: Pubkey, excludeIps: seq<Ip>)
    returns (r: LatencyRecord)
    requires pk in devices && devices[pk].status == Activated
    requires exists x <- second :: Usable(Encoded(pk), excludeIps)(x)
    ensures Ranking(second, devices, false).Retrieved?
    ensures r in second && Usable(Encoded(pk), excludeIps)(r)
    ensures Measured(second, devices, pk, excludeIps) == r.deviceIp.value
    ensures forall x <- second :: Usable(Encoded(pk), excludeIps)(x) ==> r.minNs <= x.minNs
  {
    var usable := Usable(Encoded(pk), excludeIps);
    var kept := Filter(Kept(devices, false), second);
    FilterMembers(Kept(devices, false), second);
    OrdersArePreorders();
    SortOrders(ReachableThenLatency, kept);
    var latencies := Sort(ReachableThenLatency, kept);
    forall x | x in second && usable(x) ensures x in latencies {
      assert OfActivatedDevice(devices)(x);
    }
    FilterMembers(usable, latencies);
    FastestIsLeast(Filter(usable, latencies));
    r := Fastest(Filter(usable, latencies));
  }

  lemma FreshAgainstAll(endpoint: Ip, users: seq<User>, clientIp: Ip, all: Devices, devices: Devices)
    requires forall k :: k in devices ==> k in all && devices[k] == all[k]
    requires endpoint != UNSPECIFIED && endpoint !in ExcludeIps(users, clientIp, devices)
    ensures IsFresh(endpoint, users, clientIp, devices)
    ensures IsFresh(endpoint, users, clientIp, all) <==>
            forall u <- users :: IsHidden(u, clientIp, all, devices) ==> all[u.devicePk].publicIp != endpoint
  {
    forall u | u in users && u.clientIp == clientIp
      ensures !RunsThrough(u, endpoint, devices)
      ensures RunsThrough(u, endpoint, all) <==>
              IsHidden(u, clientIp, all, devices) && all[u.devicePk].publicIp == endpoint
    {
    }
  }

  /** When the second answer has a record for every endpoint of the automatically selected
      device, and none of that device's records shows the unspecified address, the endpoint
      returned is specified and differs from every endpoint the client already uses. `devices`
      is what the filter left of `all`: against `all`, the endpoint is fresh if and only if it is not
      the public IP of a filtered-out device that carries a legacy user of the client. */
  lemma AutoEndpointIsFresh(first: seq<LatencyRecord>, second: seq<LatencyRecord>, all: Devices,
                            devices: Devices, users: seq<User>, clientIp: Ip, pk: Pubkey)
    requires forall k :: k in devices ==> k in all && devices[k] == all[k]
    requires BestOf(first, devices, true, None, ExcludeIps(users, clientIp, devices)).Selected?
    requires BestOf(first, devices, true, None, ExcludeIps(users, clientIp, devices)).record.device == Encoded(pk)
    requires Ranking(second, devices, false).Retrieved?
    requires pk in devices ==> forall ep <- TunnelEndpoints(devices[pk]) ::
               exists r <- second :: r.device == Encoded(pk) && r.deviceIp == Some(ep)
    requires forall r <- second :: r.device == Encoded(pk) ==> r.deviceIp != Some(UNSPECIFIED)
    ensures
      var endpoint := BestEndpoint(Ranking(second, devices, false).latencies, Encoded(pk), PublicIpOf(devices, pk),
                                   ExcludeIps(users, clientIp, devices));
      && endpoint != UNSPECIFIED
      && IsFresh(endpoint, users, clientIp, devices)
      && (IsFresh(endpoint, users, clientIp, all) <==>
          forall u <- users :: IsHidden(u, clientIp, all, devices) ==> all[u.devicePk].publicIp != endpoint)
  {
    var exclude := ExcludeIps(users, clientIp, devices);
    SelectedDeviceHasRoom(first, devices, exclude);
    SpareIff(devices[pk], exclude);
    var ep :| ep in TunnelEndpoints(devices[pk]) && ep !in exclude;
    var x :| x in second && x.device == Encoded(pk) && x.deviceIp == Some(ep);
    assert Usable(Encoded(pk), exclude)(x);
    var r := MeasuredEndpoint(second, devices, pk, exclude);
    FreshAgainstAll(r.deviceIp.value, users, clientIp, all, devices);
  }

  // --- when every measurement gives a fresh endpoint ---

  /** The answer shows every endpoint of the device, and nothing else for it. */
  ghost predicate Shows(second: seq<LatencyRecord>, pk: Pubkey, device: Device) {
    && (forall ep <- TunnelEndpoints(device) ::
          exists r <- second :: r.device == Encoded(pk) && r.deviceIp == Some(ep))
    && (forall r <- second :: r.device == Encoded(pk) ==>
          r.deviceIp.Some? && r.deviceIp.value in TunnelEndpoints(device))
  }

  /** The device offers an address that a hidden user of the client uses and `exclude` does not list. */
  ghost predicate OffersHidden(device: Device, u: User, clientIp: Ip, all: Devices, devices: Devices,
                               exclude: seq<Ip>)
  {
    && IsHidden(u, clientIp, all, devices)
    && all[u.devicePk].publicIp in TunnelEndpoints(device) && all[u.devicePk].publicIp !in exclude
  }

  /** A measurement that finds `ip` the fastest of the endpoints. */
  function FastestAt(pk: Pubkey, endpoints: seq<Ip>, ip: Ip): seq<LatencyRecord> {
    seq(|endpoints|, i requires 0 <= i < |endpoints| =>
      LatencyRecord(Encoded(pk), Some(endpoints[i]), if endpoints[i] == ip then 0 else 1, 0, true))
  }

  lemma FastestAtShows(pk: Pubkey, device: Device, ip: Ip)
    ensures Shows(FastestAt(pk, TunnelEndpoints(device), ip), pk, device)
  {
    var endpoints := TunnelEndpoints(device);
    var second := FastestAt(pk, endpoints, ip);
    forall ep | ep in endpoints ensures exists r <- second :: r.device == Encoded(pk) && r.deviceIp == Some(ep) {
      var i :| 0 <= i < |endpoints| && endpoints[i] == ep;
      assert second[i] in second;
    }
  }

  lemma FastestAtIsMeasured(devices: Devices, pk: Pubkey, ip: Ip, exclude: seq<Ip>)
    requires pk in devices && devices[pk].status == Activated
    requires ip in TunnelEndpoints(devices[pk]) && ip !in exclude
    ensures Measured(FastestAt(pk, TunnelEndpoints(devices[pk]), ip), devices, pk, exclude) == ip
  {
    var endpoints := TunnelEndpoints(devices[pk]);
    var second := FastestAt(pk, endpoints, ip);
    var i :| 0 <= i < |endpoints| && endpoints[i] == ip;
    assert second[i] in second && Usable(Encoded(pk), exclude)(second[i]);
    var r := MeasuredEndpoint(second, devices, pk, exclude);
    assert r.minNs <= second[i].minNs;
  }

  lemma MeasuredIsOffered(second: seq<LatencyRecord>, devices: Devices, pk: Pubkey, exclude: seq<Ip>)
    returns (endpoint: Ip)
    requires pk in devices && devices[pk].status == Activated
    requires DeviceHasAvailableEndpoint(devices[pk], exclude) && Shows(second, pk, devices[pk])
    ensures endpoint == Measured(second, devices, pk, exclude)
    ensures endpoint in TunnelEndpoints(devices[pk]) && endpoint !in exclude
  {
    var ep :| ep in TunnelEndpoints(devices[pk]) && ep !in exclude;
    var x :| x in second && x.device == Encoded(pk) && x.deviceIp == Some(ep);
    assert Usable(Encoded(pk), exclude)(x);
    var r := MeasuredEndpoint(second, devices, pk, exclude);
    endpoint := r.deviceIp.value;
  }

  /** For a selected device, the endpoint is unused by the client over all devices whatever the second
      measurement shows, if and only if the device does not offer the public IP of a filtered-out
      device that carries a legacy user of the client, or that IP is in use elsewhere as well. All of
      this is known before the measurement. */
  lemma AlwaysFreshIff(all: Devices, devices: Devices, users: seq<User>, clientIp: Ip, pk: Pubkey)
    requires forall k :: k in devices ==> k in all && devices[k] == all[k]
    requires pk in devices && devices[pk].status == Activated && UNSPECIFIED !in TunnelEndpoints(devices[pk])
    requires DeviceHasAvailableEndpoint(devices[pk], ExcludeIps(users, clientIp, devices))
    ensures
      var exclude := ExcludeIps(users, clientIp, devices);
      (forall second :: Shows(second, pk, devices[pk]) ==>
         IsFresh(Measured(second, devices, pk, exclude), users, clientIp, all))
      <==> forall u <- users :: !OffersHidden(devices[pk], u, clientIp, all, devices, exclude)
  {
    var exclude := ExcludeIps(users, clientIp, devices);
    if u :| u in users && OffersHidden(devices[pk], u, clientIp, all, devices, exclude) {
      var second := FastestAt(pk, TunnelEndpoints(devices[pk]), all[u.devicePk].publicIp);
      FastestAtShows(pk, devices[pk], all[u.devicePk].publicIp);
      FastestAtIsMeasured(devices, pk, all[u.devicePk].publicIp, exclude);
      assert RunsThrough(u, all[u.devicePk].publicIp, all);
      assert Shows(second, pk, devices[pk]) && !IsFresh(Measured(second, devices, pk, exclude), users, clientIp, all);
    } else {
      forall second | Shows(second, pk, devices[pk])
        ensures IsFresh(Measured(second, devices, pk, exclude), users, clientIp, all)
      {
        var endpoint := MeasuredIsOffered(second, devices, pk, exclude);
        FreshAgainstAll(endpoint, users, clientIp, all, devices);
        assert forall u <- users :: IsHidden(u, clientIp, all, devices) ==>
            !OffersHidden(devices[pk], u, clientIp, all, devices, exclude);
      }
    }
  }

  lemma OnlyRecordIsSelected(pk: Pubkey, device: Device, record: LatencyRecord)
    requires device.IsEligibleForProvisioning() && device.publicIp != UNSPECIFIED
    requires record == LatencyRecord(Encoded(pk), Some(device.publicIp), 1_000_000, 1_000_000, true)
    ensures
      var devices := map[pk := device];
      && BestOf([record], devices, true, None, []) == Selected(record)
      && Measured([record], devices, pk, []) == device.publicIp
  {
    var devices := map[pk := device];
    assert device.publicIp in TunnelEndpoints(device);
    assert OfActivatedDevice(devices)(record) && HasFreeEndpoint(devices, [])(record);
    FilterAll(Kept(devices, true), [record]);
    FilterAll(HasFreeEndpoint(devices, []), [record]);
    assert Usable(Encoded(pk), [])(record);
    var r := MeasuredEndpoint([record], devices, pk, []);
    BestOfIsLoopChoice([record], devices, true, None, []);
    AbsDiffValue(record.minNs, I64_MAX);
    FilterAll(Passes(devices, true, I64_MAX), [record]);
    FastestIsLeast([record]);
  }

  /** One client with a legacy user on a device that the filter drops, and one device left at the same
      public IP: the client is given the endpoint it already uses. */
  lemma HiddenUserIsMissed(full: Pubkey, pk: Pubkey, dropped: Device, device: Device, hasCapacity: Device -> bool,
                           user: User)
    requires full != pk && dropped.publicIp == device.publicIp != UNSPECIFIED
    requires !(dropped.IsEligibleForProvisioning() && hasCapacity(dropped))
    requires device.interfaces == [] && device.IsEligibleForProvisioning() && hasCapacity(device)
    requires user.devicePk == full && user.tunnelId != 0 && user.tunnelEndpoint == 0
    ensures
      var all := map[full := dropped, pk := device];
      var devices := Considered(all, hasCapacity);
      var record := LatencyRecord(Encoded(pk), Some(device.publicIp), 1_000_000, 1_000_000, true);
      var exclude := ExcludeIps([user], user.clientIp, devices);
      && BestOf([record], devices, true, None, exclude) == Selected(record)
      && Measured([record], devices, pk, exclude) == device.publicIp
      && !IsFresh(device.publicIp, [user], user.clientIp, all)
  {
    var all := map[full := dropped, pk := device];
    var record := LatencyRecord(Encoded(pk), Some(device.publicIp), 1_000_000, 1_000_000, true);
    assert Considered(all, hasCapacity) == map[pk := device];
    assert ExcludeIps([user], user.clientIp, map[pk := device]) == [];
    OnlyRecordIsSelected(pk, device, record);
    assert user in [user] && RunsThrough(user, device.publicIp, all);
  }
}
