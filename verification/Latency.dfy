/** Latency-driven device and endpoint selection (the daemon CLI's latency utilities). */
module Latency {
  import opened Basics
  import opened Onchain
  import opened StableSort

  const I64_MAX := 0x7FFF_FFFF_FFFF_FFFF

  type I64 = x: int | -I64_MAX - 1 <= x <= I64_MAX

  /** Two's-complement reduction of an exact result to 64 bits. */
  function WrapI64(x: int): I64 {
    (x + I64_MAX + 1) % (2 * I64_MAX + 2) - I64_MAX - 1
  }

  function AbsDiffI64(a: I64, b: I64): I64 {
    var diff: int := WrapI64(a - b);
    WrapI64(if diff < 0 then -diff else diff)
  }

  /** Latency tolerance: 5 ms, in nanoseconds. */
  const LATENCY_TOLERANCE_NS := 5_000_000

  /** Text that should be a public key: the canonical encoding of one, or something unparseable. */
  datatype KeyText = Encoded(pk: Pubkey) | Malformed(text: string)

  datatype LatencyRecord = LatencyRecord(
    device: KeyText,
    deviceIp: Option<Ip>,
    minNs: I64,
    avgNs: I64,
    reachable: bool)

  type Devices = map<Pubkey, Device>

  // --- tunnel endpoints of a device ---

  predicate IsEndpointInterface(iface: Interface) {
    iface.userTunnelEndpoint && iface.ipNet != DEFAULT_NETWORK
  }

  function InterfaceIps(interfaces: seq<Interface>): seq<Ip> {
    if interfaces == [] then []
    else if IsEndpointInterface(interfaces[0]) then [interfaces[0].ipNet.ip] + InterfaceIps(interfaces[1..])
    else InterfaceIps(interfaces[1..])
  }

  function TunnelEndpoints(device: Device): seq<Ip> {
    [device.publicIp] + InterfaceIps(device.interfaces)
  }

  lemma {:induction false} InterfaceIpsAppend(a: seq<Interface>, iface: Interface)
    ensures InterfaceIps(a + [iface]) ==
            InterfaceIps(a) + (if IsEndpointInterface(iface) then [iface.ipNet.ip] else [])
  {
    if a != [] {
      InterfaceIpsAppend(a[1..], iface);
      assert (a + [iface])[1..] == a[1..] + [iface];
    }
  }

  /** Collect the public IP, then the IP of every configured user-tunnel-endpoint interface. */
  method GetDeviceTunnelEndpoints(device: Device) returns (endpoints: seq<Ip>)
    ensures endpoints == TunnelEndpoints(device)
    ensures forall ip :: ip in endpoints <==>
                         || ip == device.publicIp
                         || exists iface <- device.interfaces ::
                              iface.userTunnelEndpoint && iface.ipNet != Network(UNSPECIFIED, 0) && iface.ipNet.ip == ip
  {
    endpoints := [device.publicIp];
    for i := 0 to |device.interfaces|
      invariant endpoints == [device.publicIp] + InterfaceIps(device.interfaces[..i])
      invariant forall ip :: ip in endpoints <==>
                             || ip == device.publicIp
                             || exists iface <- device.interfaces[..i] ::
                                  IsEndpointInterface(iface) && iface.ipNet.ip == ip
    {
      var iface := device.interfaces[i];
      InterfaceIpsAppend(device.interfaces[..i], iface);
      assert device.interfaces[..i + 1] == device.interfaces[..i] + [iface];
      if iface.userTunnelEndpoint && iface.ipNet != DEFAULT_NETWORK {
        endpoints := endpoints + [iface.ipNet.ip];
      }
    }
    assert device.interfaces[..|device.interfaces|] == device.interfaces;
  }

  predicate DeviceHasAvailableEndpoint(device: Device, excludeIps: seq<Ip>) {
    exists ep <- TunnelEndpoints(device) :: ep !in excludeIps
  }

  // --- orders on records ---

  predicate MinThenAvg(a: LatencyRecord, b: LatencyRecord) {
    a.minNs < b.minNs || (a.minNs == b.minNs && a.avgNs <= b.avgNs)
  }

  predicate ReachableFirst(a: LatencyRecord, b: LatencyRecord) {
    b.reachable ==> a.reachable
  }

  predicate ReachableThenLatency(a: LatencyRecord, b: LatencyRecord) {
    (a.reachable && !b.reachable) || (a.reachable == b.reachable && MinThenAvg(a, b))
  }

  lemma OrdersArePreorders()
    ensures TotalPreorder(MinThenAvg)
    ensures TotalPreorder(ReachableFirst)
    ensures TotalPreorder(ReachableThenLatency)
  {
  }

  /** The fastest record of a non-empty list; ties keep daemon order. */
  function Fastest(s: seq<LatencyRecord>): (r: LatencyRecord)
    requires s != []
    ensures r in s
    ensures exists i :: IsFirstMin(MinThenAvg, s, i) && s[i] == r
  {
    OrdersArePreorders();
    SortOrders(MinThenAvg, s);
    HeadIsSomeFirstMin(MinThenAvg, s);
    Sort(MinThenAvg, s)[0]
  }

  // --- choosing an endpoint of a device ---

  /** A record that may supply an endpoint: of this device, parseable, not excluded. */
  function Usable(device: KeyText, excludeIps: seq<Ip>): LatencyRecord -> bool {
    (r: LatencyRecord) => r.device == device && r.deviceIp.Some? && r.deviceIp.value !in excludeIps
  }

  function Fallback(publicIp: Ip, excludeIps: seq<Ip>): Ip {
    if publicIp !in excludeIps then publicIp else UNSPECIFIED
  }

  /** What endpoint selection is meant to return. */
  function BestEndpoint(latencies: seq<LatencyRecord>, device: KeyText, publicIp: Ip, excludeIps: seq<Ip>): Ip {
    var usable := Filter(Usable(device, excludeIps), latencies);
    FilterMembers(Usable(device, excludeIps), latencies);
    if usable == [] then Fallback(publicIp, excludeIps) else Fastest(usable).deviceIp.value
  }

  method SelectTunnelEndpoint(latencies: seq<LatencyRecord>, device: KeyText, publicIp: Ip, excludeIps: seq<Ip>)
    returns (endpoint: Ip)
    ensures endpoint == BestEndpoint(latencies, device, publicIp, excludeIps)
  {
    var ofDevice := (r: LatencyRecord) => r.device == device;
    var usable := Usable(device, excludeIps);
    var deviceLatencies := Filter(ofDevice, latencies);
    deviceLatencies := Sort(MinThenAvg, deviceLatencies);
    OrdersArePreorders();
    FilterMembers(ofDevice, latencies);
    SortOrders(MinThenAvg, Filter(ofDevice, latencies));
    SortCommutesWithFilter(MinThenAvg, usable, Filter(ofDevice, latencies));
    FilterTwice(ofDevice, usable, latencies);
    FilterSame(Both(ofDevice, usable), usable, latencies);
    assert Filter(usable, deviceLatencies) == Sort(MinThenAvg, Filter(usable, latencies));
    SortOrders(MinThenAvg, Filter(usable, latencies));

    for i := 0 to |deviceLatencies|
      invariant Filter(usable, deviceLatencies) == Filter(usable, deviceLatencies[i..])
    {
      var latency := deviceLatencies[i];
      assert latency in deviceLatencies;
      if latency.deviceIp.Some? {
        var ip := latency.deviceIp.value;
        if ip !in excludeIps {
          return ip;
        }
      }
      assert deviceLatencies[i..][1..] == deviceLatencies[i + 1..];
    }

    if publicIp !in excludeIps && publicIp != UNSPECIFIED {
      return publicIp;
    }
    return UNSPECIFIED;
  }

  // --- retrieving measurements from the daemon ---

  datatype Poll = PollFailed | Polled(results: seq<LatencyRecord>, ready: bool)

  datatype RetrieveError = DaemonError | TimedOut | NoneReachable(activated: nat) | NoneActivated

  datatype Retrieval = Retrieved(latencies: seq<LatencyRecord>) | RetrieveFailed(error: RetrieveError)

  /** Longest wait for the daemon's first probe pass, in seconds. */
  const MAX_WAIT := 60

  function OfActivatedDevice(devices: Devices): LatencyRecord -> bool {
    (r: LatencyRecord) => r.device.Encoded? && r.device.pk in devices && devices[r.device.pk].status == Activated
  }

  function Kept(devices: Devices, reachableOnly: bool): LatencyRecord -> bool {
    (r: LatencyRecord) => OfActivatedDevice(devices)(r) && (reachableOnly ==> r.reachable)
  }

  /** What a ready daemon's answer turns into. */
  function Ranking(results: seq<LatencyRecord>, devices: Devices, reachableOnly: bool): Retrieval {
    var kept := Filter(Kept(devices, reachableOnly), results);
    var activated := Filter(OfActivatedDevice(devices), results);
    if kept != [] then Retrieved(Sort(ReachableThenLatency, kept))
    else if reachableOnly && activated != [] then RetrieveFailed(NoneReachable(|activated|))
    else RetrieveFailed(NoneActivated)
  }

  /** The poll does not settle the retrieval: the daemon is still probing and there is time left. */
  predicate KeepsWaiting(daemon: nat -> Poll, elapsed: nat -> nat, i: nat) {
    daemon(i).Polled? && !daemon(i).ready && elapsed(i) < MAX_WAIT
  }

  /** The daemon as one retrieval sees it: its i-th answer, and the whole seconds since the start
      when that answer is looked at. It is polled at most once a second. */
  datatype Session = Session(answer: nat -> Poll, elapsed: nat -> nat) {
    ghost predicate Valid() {
      forall i :: elapsed(i) >= i
    }

    /** From the `i`-th answer on, the first that settles the retrieval. */
    ghost function SettledFrom(i: nat): Poll
      requires Valid() && i <= MAX_WAIT
      decreases MAX_WAIT - i
    {
      assert elapsed(i) >= i;
      if KeepsWaiting(answer, elapsed, i) then SettledFrom(i + 1) else answer(i)
    }

    /** The answer the retrieval works with: the first that fails, is ready, or comes too late. */
    ghost function Settled(): Poll
      requires Valid()
    {
      SettledFrom(0)
    }
  }

  /** Poll the daemon until it is ready. */
  method RetrieveLatencies(daemon: Session, devices: Devices, reachableOnly: bool) returns (retrieval: Retrieval)
    requires daemon.Valid()
    ensures retrieval ==
            match daemon.Settled()
            case PollFailed => RetrieveFailed(DaemonError)
            case Polled(results, ready) =>
              if ready then Ranking(results, devices, reachableOnly) else RetrieveFailed(TimedOut)
  {
    var latencies: seq<LatencyRecord>;
    var i := 0;
    while true
      invariant i <= MAX_WAIT
      invariant daemon.Settled() == daemon.SettledFrom(i)
      decreases MAX_WAIT - i
    {
      var response := daemon.answer(i);
      if response.PollFailed? {
        return RetrieveFailed(DaemonError);
      }
      var results := Filter(OfActivatedDevice(devices), response.results);
      var activatedCount := |results|;
      FilterMembers(OfActivatedDevice(devices), response.results);
      if reachableOnly {
        var reachable := (r: LatencyRecord) => r.reachable;
        FilterTwice(OfActivatedDevice(devices), reachable, response.results);
        results := Filter(reachable, results);
        FilterSame(Both(OfActivatedDevice(devices), reachable), Kept(devices, reachableOnly), response.results);
      } else {
        FilterSame(OfActivatedDevice(devices), Kept(devices, reachableOnly), response.results);
      }
      assert results == Filter(Kept(devices, reachableOnly), response.results);
      if response.ready && results != [] {
        latencies := results;
        break;
      }
      if !response.ready {
        if daemon.elapsed(i) >= MAX_WAIT {
          return RetrieveFailed(TimedOut);
        }
        i := i + 1;
        continue;
      }
      if reachableOnly && activatedCount > 0 {
        return RetrieveFailed(NoneReachable(activatedCount));
      }
      return RetrieveFailed(NoneActivated);
    }
    latencies := Sort(ReachableThenLatency, latencies);
    return Retrieved(latencies);
  }

  /** The endpoint chosen from a retrieved ranking is the least usable record of the daemon's
      answer by (min, avg, reachable first), the earliest such record winning ties: the two
      stable sorts with different keys act as one. */
  lemma EndpointIsLexicographicMin(results: seq<LatencyRecord>, devices: Devices, pk: Pubkey,
                                   publicIp: Ip, excludeIps: seq<Ip>)
    returns (i: nat)
    requires Ranking(results, devices, false).Retrieved?
    requires Filter(Usable(Encoded(pk), excludeIps), Filter(OfActivatedDevice(devices), results)) != []
    ensures
      var usable := Filter(Usable(Encoded(pk), excludeIps), Filter(OfActivatedDevice(devices), results));
      && IsFirstMin(Lex(MinThenAvg, ReachableFirst), usable, i)
      && usable[i].deviceIp ==
         Some(BestEndpoint(Ranking(results, devices, false).latencies, Encoded(pk), publicIp, excludeIps))
  {
    var p := Usable(Encoded(pk), excludeIps);
    var kept := Filter(Kept(devices, false), results);
    FilterSame(Kept(devices, false), OfActivatedDevice(devices), results);
    var usable := Filter(p, kept);
    OrdersArePreorders();
    SortCommutesWithFilter(ReachableThenLatency, p, kept);
    SortsCompose(MinThenAvg, ReachableThenLatency, usable);
    var lex := Lex(MinThenAvg, ReachableThenLatency);
    LexIsPreorder(MinThenAvg, ReachableThenLatency);
    i := HeadIsFirstMin(lex, usable);
    assert forall x, y :: lex(x, y) == Lex(MinThenAvg, ReachableFirst)(x, y);
    FilterMembers(p, kept);
    assert usable[i] in usable;
    SortOrders(ReachableThenLatency, usable);
  }

  // --- choosing a device ---

  datatype SelectError =
    | Retrieve(error: RetrieveError)
    | NothingAfterFiltering
    | NoSuitableDevice
    | BadKey
    | UnknownDevice

  datatype Selection = Selected(record: LatencyRecord) | SelectFailed(error: SelectError)

  /** The device may take a new user, or nobody asked for that. */
  predicate Acceptable(devices: Devices, ignoreUnprovisionable: bool, r: LatencyRecord) {
    r.device.Encoded? && r.device.pk in devices &&
    (!ignoreUnprovisionable || devices[r.device.pk].IsEligibleForProvisioning())
  }

  function AcceptableRecords(devices: Devices, ignoreUnprovisionable: bool): LatencyRecord -> bool {
    (r: LatencyRecord) => Acceptable(devices, ignoreUnprovisionable, r)
  }

  function IsDevice(pk: Pubkey): LatencyRecord -> bool {
    (r: LatencyRecord) => r.device == Encoded(pk)
  }

  /** The walk over a ranked list, position by position. */
  function Walk(latencies: seq<LatencyRecord>, devices: Devices, ignoreUnprovisionable: bool,
                best: Option<nat>, bestNs: I64, i: nat): Selection
    requires i <= |latencies|
    requires best.Some? ==> best.value < |latencies|
    decreases |latencies| - i
  {
    if i == |latencies| then
      if best.Some? then Selected(latencies[best.value]) else SelectFailed(NoSuitableDevice)
    else if best == Some(i) then Selected(latencies[i])
    else if latencies[i].device.Malformed? then SelectFailed(BadKey)
    else if latencies[i].device.pk !in devices then SelectFailed(UnknownDevice)
    else if Acceptable(devices, ignoreUnprovisionable, latencies[i])
         && AbsDiffI64(latencies[i].minNs, bestNs) > LATENCY_TOLERANCE_NS then Selected(latencies[i])
    else Walk(latencies, devices, ignoreUnprovisionable, best, bestNs, i + 1)
  }

  /** The first position satisfying `p`, or the length of the list. */
  function FirstWhere(p: LatencyRecord -> bool, s: seq<LatencyRecord>): (i: nat)
    ensures i <= |s|
    ensures forall j :: 0 <= j < i ==> !p(s[j])
    ensures i < |s| ==> p(s[i])
  {
    if s == [] then 0 else if p(s[0]) then 0 else 1 + FirstWhere(p, s[1..])
  }

  function WalkFrom(latencies: seq<LatencyRecord>, devices: Devices, ignoreUnprovisionable: bool,
                    current: Option<Pubkey>): Selection
  {
    var c := if current.Some? then FirstWhere(IsDevice(current.value), latencies) else |latencies|;
    if c < |latencies| then Walk(latencies, devices, ignoreUnprovisionable, Some(c), latencies[c].minNs, 0)
    else Walk(latencies, devices, ignoreUnprovisionable, None, I64_MAX, 0)
  }

  /** The selection loop over a ranked list: an index stands for a reference into the list. */
  method PickDevice(latencies: seq<LatencyRecord>, devices: Devices, ignoreUnprovisionable: bool,
                    current: Option<Pubkey>)
    returns (selection: Selection)
    ensures selection == WalkFrom(latencies, devices, ignoreUnprovisionable, current)
  {
    var best: Option<nat> := None;
    var bestNs: I64 := I64_MAX;
    if current.Some? {
      var c := FirstWhere(IsDevice(current.value), latencies);
      if c < |latencies| {
        best, bestNs := Some(c), latencies[c].minNs;
      }
    }
    for i := 0 to |latencies|
      invariant best.Some? ==> best.value < |latencies|
      invariant WalkFrom(latencies, devices, ignoreUnprovisionable, current)
             == Walk(latencies, devices, ignoreUnprovisionable, best, bestNs, i)
    {
      if best == Some(i) {
        return Selected(latencies[i]);
      }
      if latencies[i].device.Malformed? {
        return SelectFailed(BadKey);
      }
      if latencies[i].device.pk !in devices {
        return SelectFailed(UnknownDevice);
      }
      var device := devices[latencies[i].device.pk];
      if (!ignoreUnprovisionable || device.IsEligibleForProvisioning())
         && AbsDiffI64(latencies[i].minNs, bestNs) > LATENCY_TOLERANCE_NS {
        return Selected(latencies[i]);
      }
    }
    if best.None? {
      return SelectFailed(NoSuitableDevice);
    }
    return Selected(latencies[best.value]);
  }

  function HasFreeEndpoint(devices: Devices, excludeIps: seq<Ip>): LatencyRecord -> bool {
    (r: LatencyRecord) => r.device.Encoded? && r.device.pk in devices ==>
      DeviceHasAvailableEndpoint(devices[r.device.pk], excludeIps)
  }

  /** Reachable records of activated devices that still have an endpoint for this client,
      in daemon order. */
  function Contenders(results: seq<LatencyRecord>, devices: Devices, excludeIps: seq<Ip>): seq<LatencyRecord> {
    Filter(HasFreeEndpoint(devices, excludeIps), Filter(Kept(devices, true), results))
  }

  /** The declarative choice. The current device's fastest record stays unless the fastest
      acceptable one beats it by more than the tolerance; with no current record the fastest
      acceptable one wins, provided it is more than the tolerance below the sentinel. */
  function HysteresisChoice(contenders: seq<LatencyRecord>, devices: Devices, ignoreUnprovisionable: bool,
                            current: Option<Pubkey>): Selection
  {
    var acceptable := Filter(AcceptableRecords(devices, ignoreUnprovisionable), contenders);
    var mine := if current.Some? then Filter(IsDevice(current.value), contenders) else [];
    if mine == [] then
      if acceptable != [] && Fastest(acceptable).minNs + LATENCY_TOLERANCE_NS < I64_MAX
      then Selected(Fastest(acceptable))
      else SelectFailed(NoSuitableDevice)
    else if acceptable != [] && Fastest(acceptable).minNs + LATENCY_TOLERANCE_NS < Fastest(mine).minNs
    then Selected(Fastest(acceptable))
    else Selected(Fastest(mine))
  }

  method BestLatency(daemon: Session, devices: Devices, ignoreUnprovisionable: bool, current: Option<Pubkey>,
                     excludeIps: seq<Ip>)
    returns (selection: Selection)
    requires daemon.Valid()
    ensures selection ==
            match daemon.Settled()
            case PollFailed => SelectFailed(Retrieve(DaemonError))
            case Polled(results, ready) =>
              if ready then BestOf(results, devices, ignoreUnprovisionable, current, excludeIps)
              else SelectFailed(Retrieve(TimedOut))
  {
    var retrieval := RetrieveLatencies(daemon, devices, true);
    if retrieval.RetrieveFailed? {
      return SelectFailed(Retrieve(retrieval.error));
    }
    var latencies := retrieval.latencies;
    if excludeIps != [] {
      latencies := Filter(HasFreeEndpoint(devices, excludeIps), latencies);
    } else {
      forall r ensures HasFreeEndpoint(devices, excludeIps)(r) {
        if r.device.Encoded? && r.device.pk in devices {
          assert devices[r.device.pk].publicIp in TunnelEndpoints(devices[r.device.pk]);
        }
      }
      FilterAll(HasFreeEndpoint(devices, excludeIps), latencies);
    }
    if latencies == [] {
      return SelectFailed(NothingAfterFiltering);
    }
    selection := PickDevice(latencies, devices, ignoreUnprovisionable, current);
  }

  /** Selection from a ready answer: rank, drop fully used devices, walk. */
  function BestOf(results: seq<LatencyRecord>, devices: Devices, ignoreUnprovisionable: bool,
                  current: Option<Pubkey>, excludeIps: seq<Ip>): Selection
  {
    match Ranking(results, devices, true)
    case RetrieveFailed(e) => SelectFailed(Retrieve(e))
    case Retrieved(ranked) =>
      var latencies := Filter(HasFreeEndpoint(devices, excludeIps), ranked);
      if latencies == [] then SelectFailed(NothingAfterFiltering)
      else WalkFrom(latencies, devices, ignoreUnprovisionable, current)
  }

  ghost predicate NonNegative(s: seq<LatencyRecord>) {
    forall r <- s :: 0 <= r.minNs
  }

  function Distance(a: int, b: int): int {
    if a < b then b - a else a - b
  }

  /** The 64-bit value of a difference of two 64-bit integers. */
  lemma WrapValue(x: int)
    requires -0x1_0000_0000_0000_0000 < x < 0x1_0000_0000_0000_0000
    ensures WrapI64(x)
            == if x < -I64_MAX - 1 then x + 0x1_0000_0000_0000_0000
               else if x > I64_MAX then x - 0x1_0000_0000_0000_0000
               else x
  {
  }

  /** What the loop's subtraction and `abs` compute: beyond 2^63 the distance is folded back, and at
      2^63 it is negative. */
  lemma AbsDiffValue(a: I64, b: I64)
    ensures AbsDiffI64(a, b)
            == if Distance(a, b) <= I64_MAX then Distance(a, b)
               else if Distance(a, b) == I64_MAX + 1 then -I64_MAX - 1
               else 0x1_0000_0000_0000_0000 - Distance(a, b)
  {
    WrapValue(a - b);
    var diff: int := WrapI64(a - b);
    WrapValue(if diff < 0 then -diff else diff);
  }

  /** The 64-bit subtraction and `abs` of the loop are exact precisely when the distance fits;
      it always does when both latencies are non-negative. */
  lemma AbsDiffExact(a: I64, b: I64)
    ensures AbsDiffI64(a, b) == Distance(a, b) <==> Distance(a, b) <= I64_MAX
    ensures 0 <= a && 0 <= b ==> AbsDiffI64(a, b) == Distance(a, b)
  {
    AbsDiffValue(a, b);
  }

  /** The distance is neither 2^63 nor within the tolerance of 2^64. */
  predicate Comparable(a: I64, b: I64) {
    Distance(a, b) != 0x8000_0000_0000_0000 && Distance(a, b) < 0x1_0000_0000_0000_0000 - LATENCY_TOLERANCE_NS
  }

  /** The loop's test "further apart than the tolerance" is right about two latencies exactly when
      they are comparable. */
  lemma ToleranceTestExact(a: I64, b: I64)
    ensures (AbsDiffI64(a, b) > LATENCY_TOLERANCE_NS <==> Distance(a, b) > LATENCY_TOLERANCE_NS) <==> Comparable(a, b)
  {
    AbsDiffValue(a, b);
  }

  /** A latency of -1 ns sits at distance 2^63 from the sentinel, which has no 64-bit absolute
      value: the record is passed over although it is the only acceptable one. */
  lemma NegativeLatencyIsPassedOver(pk: Pubkey, device: Device)
    requires device.status == Activated
    ensures
      var results := [LatencyRecord(Encoded(pk), None, -1, 0, true)];
      && BestOf(results, map[pk := device], false, None, []) == SelectFailed(NoSuitableDevice)
      && HysteresisChoice(Contenders(results, map[pk := device], []), map[pk := device], false, None).Selected?
  {
    var devices := map[pk := device];
    var record := LatencyRecord(Encoded(pk), None, -1, 0, true);
    assert device.publicIp in TunnelEndpoints(device);
    assert HasFreeEndpoint(devices, [])(record);
    assert OfActivatedDevice(devices)(record);
    assert Kept(devices, true)(record);
    FilterAll(Kept(devices, true), [record]);
    FilterAll(HasFreeEndpoint(devices, []), [record]);
    var ranked := Sort(ReachableThenLatency, [record]);
    SortTied(ReachableThenLatency, [record]);
    assert AbsDiffI64(-1, I64_MAX) == -I64_MAX - 1;
    assert Walk(ranked, devices, false, None, I64_MAX, 1) == SelectFailed(NoSuitableDevice);
    assert Filter(AcceptableRecords(devices, false), [record]) == [record];
  }

  lemma {:induction false} FirstWhereIsFilterHead(p: LatencyRecord -> bool, s: seq<LatencyRecord>)
    ensures FirstWhere(p, s) < |s| <==> Filter(p, s) != []
    ensures FirstWhere(p, s) < |s| ==> s[FirstWhere(p, s)] == Filter(p, s)[0]
  {
    if s != [] && !p(s[0]) {
      FirstWhereIsFilterHead(p, s[1..]);
    }
  }

  // --- what the loop computes ---

  /** The loop's own test: the record is acceptable and its machine distance from `ns` exceeds the
      tolerance. */
  function Passes(devices: Devices, ignoreUnprovisionable: bool, ns: I64): LatencyRecord -> bool {
    (r: LatencyRecord) =>
      Acceptable(devices, ignoreUnprovisionable, r) && AbsDiffI64(r.minNs, ns) > LATENCY_TOLERANCE_NS
  }

  /** The walk ends on the first record that passes the test, unless it meets its starting record
      before that. */
  lemma {:induction false} WalkIsFirstPass(latencies: seq<LatencyRecord>, devices: Devices, ignoreUnprovisionable: bool,
                                           best: Option<nat>, ns: I64, i: nat)
    requires i <= |latencies| && (best.Some? ==> i <= best.value < |latencies|)
    requires forall r <- latencies :: r.device.Encoded? && r.device.pk in devices
    requires forall j :: 0 <= j < i ==> !Passes(devices, ignoreUnprovisionable, ns)(latencies[j])
    ensures
      var j := FirstWhere(Passes(devices, ignoreUnprovisionable, ns), latencies);
      Walk(latencies, devices, ignoreUnprovisionable, best, ns, i) ==
      if j < (if best.Some? then best.value else |latencies|) then Selected(latencies[j])
      else if best.Some? then Selected(latencies[best.value])
      else SelectFailed(NoSuitableDevice)
    decreases |latencies| - i
  {
    var p := Passes(devices, ignoreUnprovisionable, ns);
    var j := FirstWhere(p, latencies);
    assert i <= j;
    if i < |latencies| && best != Some(i) {
      assert latencies[i] in latencies;
      if p(latencies[i]) {
        assert j == i;
      } else {
        WalkIsFirstPass(latencies, devices, ignoreUnprovisionable, best, ns, i + 1);
      }
    }
  }

  /** Reachable records only: the ranking is by latency alone. */
  lemma RankedContenders(results: seq<LatencyRecord>, devices: Devices, excludeIps: seq<Ip>)
    requires Ranking(results, devices, true).Retrieved?
    ensures Filter(HasFreeEndpoint(devices, excludeIps), Ranking(results, devices, true).latencies)
         == Sort(MinThenAvg, Contenders(results, devices, excludeIps))
    ensures forall r <- Contenders(results, devices, excludeIps) ::
              r in results && r.reachable && OfActivatedDevice(devices)(r) && HasFreeEndpoint(devices, excludeIps)(r)
  {
    var kept := Filter(Kept(devices, true), results);
    var p := HasFreeEndpoint(devices, excludeIps);
    FilterMembers(Kept(devices, true), results);
    FilterMembers(p, kept);
    OrdersArePreorders();
    SortSame(ReachableThenLatency, MinThenAvg, kept);
    SortCommutesWithFilter(MinThenAvg, p, kept);
  }

  lemma {:induction false} SortSame(le: (LatencyRecord, LatencyRecord) -> bool,
                                    le': (LatencyRecord, LatencyRecord) -> bool,
                                    s: seq<LatencyRecord>)
    requires TotalPreorder(le)
    requires forall x, y :: x in s && y in s ==> le(x, y) == le'(x, y)
    ensures Sort(le, s) == Sort(le', s)
  {
    if s != [] {
      SortSame(le, le', s[1..]);
      SortOrders(le, s[1..]);
      assert s[0] in s;
      InsertSame(le, le', s[0], Sort(le, s[1..]));
    }
  }

  /** The first record of the ranked list satisfying `p` is the fastest of those that do. */
  lemma FirstRankedIsFastest(p: LatencyRecord -> bool, s: seq<LatencyRecord>)
    ensures
      var ranked := Sort(MinThenAvg, s);
      var i := FirstWhere(p, ranked);
      && (i < |ranked| <==> Filter(p, s) != [])
      && (i < |ranked| ==> ranked[i] == Fastest(Filter(p, s)))
  {
    OrdersArePreorders();
    SortCommutesWithFilter(MinThenAvg, p, s);
    SortOrders(MinThenAvg, Filter(p, s));
    FirstWhereIsFilterHead(p, Sort(MinThenAvg, s));
  }

  /** The records of the current device. */
  function Mine(contenders: seq<LatencyRecord>, current: Option<Pubkey>): seq<LatencyRecord> {
    if current.Some? then Filter(IsDevice(current.value), contenders) else []
  }

  /** The latency to beat: the current device's best, or the sentinel. */
  function Bar(contenders: seq<LatencyRecord>, current: Option<Pubkey>): I64 {
    var mine := Mine(contenders, current);
    if mine == [] then I64_MAX else Fastest(mine).minNs
  }

  /** What the loop selects, for any 64-bit latencies: the fastest record that passes the machine
      test and lies below the bar, else the current device's fastest. */
  function LoopChoice(contenders: seq<LatencyRecord>, devices: Devices, ignoreUnprovisionable: bool,
                      current: Option<Pubkey>): Selection
  {
    var mine, bar := Mine(contenders, current), Bar(contenders, current);
    var passing := Filter(Passes(devices, ignoreUnprovisionable, bar), contenders);
    if passing != [] && Fastest(passing).minNs < bar then Selected(Fastest(passing))
    else if mine != [] then Selected(Fastest(mine))
    else SelectFailed(NoSuitableDevice)
  }

  lemma RankedWalkIsLoopChoice(contenders: seq<LatencyRecord>, devices: Devices,
                               ignoreUnprovisionable: bool, current: Option<Pubkey>)
    requires forall r <- contenders :: r.device.Encoded? && r.device.pk in devices
    ensures WalkFrom(Sort(MinThenAvg, contenders), devices, ignoreUnprovisionable, current)
         == LoopChoice(contenders, devices, ignoreUnprovisionable, current)
  {
    var ranked := Sort(MinThenAvg, contenders);
    OrdersArePreorders();
    SortOrders(MinThenAvg, contenders);
    SortedWalk(ranked, devices, ignoreUnprovisionable, current);
    FirstRankedIsFastest(Passes(devices, ignoreUnprovisionable, Bar(contenders, current)), contenders);
    if current.Some? {
      FirstRankedIsFastest(IsDevice(current.value), contenders);
    }
  }

  /** The walk over a ranked list: the first record to pass, if it is faster than where the walk
      started from. */
  lemma {:induction false} SortedWalk(ranked: seq<LatencyRecord>, devices: Devices, ignoreUnprovisionable: bool,
                                      current: Option<Pubkey>)
    requires Sorted(MinThenAvg, ranked)
    requires forall r <- ranked :: r.device.Encoded? && r.device.pk in devices
    ensures
      var c := if current.Some? then FirstWhere(IsDevice(current.value), ranked) else |ranked|;
      var bar := if c < |ranked| then ranked[c].minNs else I64_MAX;
      var j := FirstWhere(Passes(devices, ignoreUnprovisionable, bar), ranked);
      WalkFrom(ranked, devices, ignoreUnprovisionable, current) ==
      if j < |ranked| && ranked[j].minNs < bar then Selected(ranked[j])
      else if c < |ranked| then Selected(ranked[c])
      else SelectFailed(NoSuitableDevice)
  {
    var c := if current.Some? then FirstWhere(IsDevice(current.value), ranked) else |ranked|;
    if c < |ranked| {
      WalkIsFirstPass(ranked, devices, ignoreUnprovisionable, Some(c), ranked[c].minNs, 0);
      PassBeforeCurrent(ranked, devices, ignoreUnprovisionable, c);
    } else {
      WalkIsFirstPass(ranked, devices, ignoreUnprovisionable, None, I64_MAX, 0);
      assert AbsDiffI64(I64_MAX, I64_MAX) == 0;
    }
  }

  /** A record that passes against a latency differs from it. */
  lemma PassDiffers(devices: Devices, ignoreUnprovisionable: bool, ns: I64, r: LatencyRecord)
    requires Passes(devices, ignoreUnprovisionable, ns)(r)
    ensures r.minNs != ns
  {
    AbsDiffValue(ns, ns);
  }

  /** In a ranked list the first record to pass against record `c` comes before it exactly if it is
      faster. */
  lemma PassBeforeCurrent(ranked: seq<LatencyRecord>, devices: Devices, ignoreUnprovisionable: bool,
                          c: nat)
    requires c < |ranked| && Sorted(MinThenAvg, ranked)
    ensures
      var j := FirstWhere(Passes(devices, ignoreUnprovisionable, ranked[c].minNs), ranked);
      j < c <==> j < |ranked| && ranked[j].minNs < ranked[c].minNs
  {
    var p := Passes(devices, ignoreUnprovisionable, ranked[c].minNs);
    var j := FirstWhere(p, ranked);
    if j < |ranked| {
      PassDiffers(devices, ignoreUnprovisionable, ranked[c].minNs, ranked[j]);
      assert j < c ==> MinThenAvg(ranked[j], ranked[c]);
      assert c < j ==> MinThenAvg(ranked[c], ranked[j]);
    }
  }

  /** The loop, whatever the latencies: it selects `LoopChoice`, and never trips over a key or a
      device lookup. */
  lemma BestOfIsLoopChoice(results: seq<LatencyRecord>, devices: Devices,
                           ignoreUnprovisionable: bool, current: Option<Pubkey>,
                           excludeIps: seq<Ip>)
    ensures
      var contenders := Contenders(results, devices, excludeIps);
      var selection := BestOf(results, devices, ignoreUnprovisionable, current, excludeIps);
      if contenders != [] then selection == LoopChoice(contenders, devices, ignoreUnprovisionable, current)
      else selection.SelectFailed? && selection.error !in {BadKey, UnknownDevice, NoSuitableDevice}
  {
    var contenders := Contenders(results, devices, excludeIps);
    if Ranking(results, devices, true).Retrieved? {
      RankedContenders(results, devices, excludeIps);
      OrdersArePreorders();
      SortOrders(MinThenAvg, contenders);
      RankedWalkIsLoopChoice(contenders, devices, ignoreUnprovisionable, current);
    } else {
      FilterMembers(HasFreeEndpoint(devices, excludeIps), Filter(Kept(devices, true), results));
    }
  }

  // --- against the declarative choice ---

  /** The machine test is right about the fastest acceptable record, if that is below the bar. */
  predicate TestIsRight(contenders: seq<LatencyRecord>, devices: Devices, ignoreUnprovisionable: bool,
                        current: Option<Pubkey>)
  {
    var acceptable := Filter(AcceptableRecords(devices, ignoreUnprovisionable), contenders);
    var bar := Bar(contenders, current);
    acceptable != [] && Fastest(acceptable).minNs < bar ==> Comparable(Fastest(acceptable).minNs, bar)
  }

  /** A subset that keeps the fastest record has the same fastest record. */
  lemma FastestKept(p: LatencyRecord -> bool, s: seq<LatencyRecord>)
    requires s != [] && p(Fastest(s))
    ensures Filter(p, s) != [] && Fastest(Filter(p, s)) == Fastest(s)
  {
    OrdersArePreorders();
    SortOrders(MinThenAvg, s);
    SortCommutesWithFilter(MinThenAvg, p, s);
    SortOrders(MinThenAvg, Filter(p, s));
  }

  lemma FastestIsLeast(s: seq<LatencyRecord>)
    requires s != []
    ensures Fastest(s) in s && forall r <- s :: Fastest(s).minNs <= r.minNs
  {
    OrdersArePreorders();
    SortOrders(MinThenAvg, s);
    var ranked := Sort(MinThenAvg, s);
    forall r | r in s ensures Fastest(s).minNs <= r.minNs {
      var k :| 0 <= k < |ranked| && ranked[k] == r;
    }
    assert ranked[0] in ranked;
  }

  /** The passing records are the acceptable ones that pass. */
  lemma PassingAmongAcceptable(contenders: seq<LatencyRecord>, devices: Devices,
                               ignoreUnprovisionable: bool, ns: I64)
    ensures
      var p := Passes(devices, ignoreUnprovisionable, ns);
      var acceptable := Filter(AcceptableRecords(devices, ignoreUnprovisionable), contenders);
      && Filter(p, contenders) == Filter(p, acceptable)
      && forall r :: r in Filter(p, contenders) <==> r in acceptable && p(r)
  {
    var p, q := Passes(devices, ignoreUnprovisionable, ns), AcceptableRecords(devices, ignoreUnprovisionable);
    FilterTwice(q, p, contenders);
    FilterSame(Both(q, p), p, contenders);
    FilterMembers(p, Filter(q, contenders));
  }

  /** The loop makes the declarative choice if and only if its test is right about the fastest
      acceptable record. */
  lemma LoopChoiceIsHysteresisIff(contenders: seq<LatencyRecord>, devices: Devices,
                                  ignoreUnprovisionable: bool, current: Option<Pubkey>)
    ensures LoopChoice(contenders, devices, ignoreUnprovisionable, current)
         == HysteresisChoice(contenders, devices, ignoreUnprovisionable, current)
        <==> TestIsRight(contenders, devices, ignoreUnprovisionable, current)
  {
    var bar := Bar(contenders, current);
    var p := Passes(devices, ignoreUnprovisionable, bar);
    var acceptable := Filter(AcceptableRecords(devices, ignoreUnprovisionable), contenders);
    var passing := Filter(p, contenders);
    PassingAmongAcceptable(contenders, devices, ignoreUnprovisionable, bar);
    if passing != [] {
      FastestIsLeast(passing);
    }
    if acceptable != [] {
      FastestIsLeast(acceptable);
      FilterMembers(AcceptableRecords(devices, ignoreUnprovisionable), contenders);
      ToleranceTestExact(Fastest(acceptable).minNs, bar);
      if p(Fastest(acceptable)) {
        FastestKept(p, acceptable);
      } else if passing != [] {
        ToleranceTestExact(Fastest(passing).minNs, bar);
      }
    }
  }

  /** The loop with its sentinel, early exits and 64-bit arithmetic makes the declarative choice if
      and only if its test is right about the fastest acceptable record; non-negative latencies
      always are. */
  lemma BestOfIsHysteresisChoiceIff(results: seq<LatencyRecord>, devices: Devices,
                                    ignoreUnprovisionable: bool, current: Option<Pubkey>,
                                    excludeIps: seq<Ip>)
    requires Contenders(results, devices, excludeIps) != []
    ensures
      var contenders := Contenders(results, devices, excludeIps);
      var right := TestIsRight(contenders, devices, ignoreUnprovisionable, current);
      var selection := BestOf(results, devices, ignoreUnprovisionable, current, excludeIps);
      && (selection == HysteresisChoice(contenders, devices, ignoreUnprovisionable, current) <==> right)
      && (NonNegative(results) ==> right)
  {
    var contenders := Contenders(results, devices, excludeIps);
    var acceptable := Filter(AcceptableRecords(devices, ignoreUnprovisionable), contenders);
    BestOfIsLoopChoice(results, devices, ignoreUnprovisionable, current, excludeIps);
    LoopChoiceIsHysteresisIff(contenders, devices, ignoreUnprovisionable, current);
    if NonNegative(results) && acceptable != [] {
      FastestIsLeast(acceptable);
      FilterMembers(AcceptableRecords(devices, ignoreUnprovisionable), contenders);
      FilterMembers(HasFreeEndpoint(devices, excludeIps), Filter(Kept(devices, true), results));
      FilterMembers(Kept(devices, true), results);
      assert Fastest(acceptable) in results;
    }
  }

  /** Every record of a device is acceptable when one is, so a winner is also the fastest
      record of its own device. */
  lemma WinnerIsFastestOfItsDevice(contenders: seq<LatencyRecord>, devices: Devices,
                                   ignoreUnprovisionable: bool)
    requires Filter(AcceptableRecords(devices, ignoreUnprovisionable), contenders) != []
    ensures
      var winner := Fastest(Filter(AcceptableRecords(devices, ignoreUnprovisionable), contenders));
      && winner.device.Encoded?
      && Filter(IsDevice(winner.device.pk), contenders) != []
      && Fastest(Filter(IsDevice(winner.device.pk), contenders)) == winner
  {
    var p := AcceptableRecords(devices, ignoreUnprovisionable);
    var acceptable := Filter(p, contenders);
    var winner := Fastest(acceptable);
    FilterMembers(p, contenders);
    var i :| IsFirstMin(MinThenAvg, acceptable, i) && acceptable[i] == winner;
    assert acceptable[i] in acceptable;
    var q := IsDevice(winner.device.pk);
    FilterMembers(q, contenders);
    FilterTwice(p, q, contenders);
    FilterSame(Both(p, q), q, contenders);
    OrdersArePreorders();
    SortOrders(MinThenAvg, acceptable);
    SortCommutesWithFilter(MinThenAvg, q, acceptable);
    assert Filter(q, Sort(MinThenAvg, acceptable))[0] == winner;
  }

  // --- selecting again ---

  lemma LoopChoiceMembers(contenders: seq<LatencyRecord>, devices: Devices,
                          ignoreUnprovisionable: bool, current: Option<Pubkey>)
    requires LoopChoice(contenders, devices, ignoreUnprovisionable, current).Selected?
    ensures
      var r := LoopChoice(contenders, devices, ignoreUnprovisionable, current).record;
      && r in contenders && r.device.Encoded?
      && (current.None? ==> Acceptable(devices, ignoreUnprovisionable, r))
  {
    var mine, bar := Mine(contenders, current), Bar(contenders, current);
    var passing := Filter(Passes(devices, ignoreUnprovisionable, bar), contenders);
    FilterMembers(Passes(devices, ignoreUnprovisionable, bar), contenders);
    if passing != [] {
      FastestIsLeast(passing);
    }
    if mine != [] {
      FilterMembers(IsDevice(current.value), contenders);
      FastestIsLeast(mine);
    }
  }

  /** No acceptable record below `r` passes the test against it. */
  predicate Unbeaten(contenders: seq<LatencyRecord>, devices: Devices, ignoreUnprovisionable: bool, r: LatencyRecord) {
    forall x <- contenders ::
      Acceptable(devices, ignoreUnprovisionable, x) && x.minNs < r.minNs ==>
        AbsDiffI64(x.minNs, r.minNs) <= LATENCY_TOLERANCE_NS
  }

  /** With the device of some record as the current one, that record is selected exactly when it is
      the fastest of its device and unbeaten. */
  lemma SelectedAgainIff(contenders: seq<LatencyRecord>, devices: Devices,
                         ignoreUnprovisionable: bool, r: LatencyRecord)
    requires r in contenders && r.device.Encoded?
    ensures LoopChoice(contenders, devices, ignoreUnprovisionable, Some(r.device.pk)) == Selected(r) <==>
            && Mine(contenders, Some(r.device.pk)) != []
            && r == Fastest(Mine(contenders, Some(r.device.pk)))
            && Unbeaten(contenders, devices, ignoreUnprovisionable, r)
  {
    var mine, bar := Mine(contenders, Some(r.device.pk)), Bar(contenders, Some(r.device.pk));
    var p := Passes(devices, ignoreUnprovisionable, bar);
    var passing := Filter(p, contenders);
    FilterMembers(IsDevice(r.device.pk), contenders);
    FilterMembers(p, contenders);
    assert r in mine;
    FastestIsLeast(mine);
    if passing != [] {
      FastestIsLeast(passing);
    }
    forall x | x in contenders && Acceptable(devices, ignoreUnprovisionable, x) && x.minNs < bar
      ensures AbsDiffI64(x.minNs, bar) > LATENCY_TOLERANCE_NS <==> x in passing
    {
      assert p(x) <==> AbsDiffI64(x.minNs, bar) > LATENCY_TOLERANCE_NS;
    }
  }

  /** Running the selection again on the same answer, with the selected device as the current one,
      returns the same record if and only if that record is the fastest of its device and unbeaten.
      This is so whenever the first run's test was right, in particular for all non-negative
      latencies: fixed measurements then cause at most one switch. */
  lemma SelectionIsFixpointIff(results: seq<LatencyRecord>, devices: Devices,
                               ignoreUnprovisionable: bool, current: Option<Pubkey>,
                               excludeIps: seq<Ip>)
    requires BestOf(results, devices, ignoreUnprovisionable, current, excludeIps).Selected?
    ensures
      var contenders := Contenders(results, devices, excludeIps);
      var r := BestOf(results, devices, ignoreUnprovisionable, current, excludeIps).record;
      && r in contenders && r.device.Encoded?
      && var again := BestOf(results, devices, ignoreUnprovisionable, Some(r.device.pk), excludeIps);
         var mine := Mine(contenders, Some(r.device.pk));
         && (again == Selected(r) <==>
             mine != [] && r == Fastest(mine) && Unbeaten(contenders, devices, ignoreUnprovisionable, r))
         && (TestIsRight(contenders, devices, ignoreUnprovisionable, current) ==> again == Selected(r))
         && (NonNegative(results) ==> again == Selected(r))
  {
    var contenders := Contenders(results, devices, excludeIps);
    var r := BestOf(results, devices, ignoreUnprovisionable, current, excludeIps).record;
    BestOfIsLoopChoice(results, devices, ignoreUnprovisionable, current, excludeIps);
    LoopChoiceMembers(contenders, devices, ignoreUnprovisionable, current);
    BestOfIsLoopChoice(results, devices, ignoreUnprovisionable, Some(r.device.pk), excludeIps);
    SelectedAgainIff(contenders, devices, ignoreUnprovisionable, r);
    BestOfIsHysteresisChoiceIff(results, devices, ignoreUnprovisionable, current, excludeIps);
    if TestIsRight(contenders, devices, ignoreUnprovisionable, current) {
      RightTestIsFixpoint(contenders, devices, ignoreUnprovisionable, current);
    }
  }

  lemma RightTestIsFixpoint(contenders: seq<LatencyRecord>, devices: Devices,
                            ignoreUnprovisionable: bool, current: Option<Pubkey>)
    requires TestIsRight(contenders, devices, ignoreUnprovisionable, current)
    requires LoopChoice(contenders, devices, ignoreUnprovisionable, current).Selected?
    ensures
      var choice := LoopChoice(contenders, devices, ignoreUnprovisionable, current);
      && choice.record.device.Encoded?
      && LoopChoice(contenders, devices, ignoreUnprovisionable, Some(choice.record.device.pk)) == choice
  {
    var acceptable := Filter(AcceptableRecords(devices, ignoreUnprovisionable), contenders);
    var r := LoopChoice(contenders, devices, ignoreUnprovisionable, current).record;
    LoopChoiceIsHysteresisIff(contenders, devices, ignoreUnprovisionable, current);
    LoopChoiceMembers(contenders, devices, ignoreUnprovisionable, current);
    if acceptable != [] && r == Fastest(acceptable) {
      WinnerIsFastestOfItsDevice(contenders, devices, ignoreUnprovisionable);
      FastestIsLeast(acceptable);
      FilterMembers(AcceptableRecords(devices, ignoreUnprovisionable), contenders);
      SelectedAgainIff(contenders, devices, ignoreUnprovisionable, r);
    } else {
      FilterMembers(IsDevice(current.value), contenders);
      FastestIsLeast(Mine(contenders, current));
    }
  }

  /** Below zero a second run can switch: -1 ns is passed over against the sentinel, so 10 ms is
      selected, and beaten by -1 ns once it is the current device. */
  lemma FixpointFailsBelowZero(a: Pubkey, b: Pubkey, device: Device)
    requires a != b && device.status == Activated
    ensures
      var devices := map[a := device, b := device];
      var fast := LatencyRecord(Encoded(a), None, -1, 0, true);
      var slow := LatencyRecord(Encoded(b), None, 10_000_000, 0, true);
      && BestOf([fast, slow], devices, false, None, []) == Selected(slow)
      && BestOf([fast, slow], devices, false, Some(b), []) == Selected(fast)
  {
    var devices := map[a := device, b := device];
    var fast := LatencyRecord(Encoded(a), None, -1, 0, true);
    var slow := LatencyRecord(Encoded(b), None, 10_000_000, 0, true);
    var both := [fast, slow];
    assert device.publicIp in TunnelEndpoints(device);
    forall r | r in both ensures Kept(devices, true)(r) && HasFreeEndpoint(devices, [])(r) {
      assert OfActivatedDevice(devices)(r);
    }
    FilterAll(Kept(devices, true), both);
    FilterAll(HasFreeEndpoint(devices, []), both);
    BestOfIsLoopChoice(both, devices, false, None, []);
    BestOfIsLoopChoice(both, devices, false, Some(b), []);
    TwoRecords(fast, slow, devices, b);
  }

  lemma TwoRecords(fast: LatencyRecord, slow: LatencyRecord, devices: Devices, b: Pubkey)
    requires Acceptable(devices, false, fast) && Acceptable(devices, false, slow)
    requires fast.minNs == -1 && slow.minNs == 10_000_000 && fast.device != Encoded(b) && slow.device == Encoded(b)
    ensures LoopChoice([fast, slow], devices, false, None) == Selected(slow)
    ensures LoopChoice([fast, slow], devices, false, Some(b)) == Selected(fast)
  {
    SomeDistances();
    PassingPair(fast, slow, devices, I64_MAX);
    PassingPair(fast, slow, devices, 10_000_000);
    FilterPair(IsDevice(b), fast, slow);
    assert Mine([fast, slow], Some(b)) == [slow];
    FastestIsLeast([slow]);
    FastestIsLeast([fast]);
  }

  lemma PassingPair(x: LatencyRecord, y: LatencyRecord, devices: Devices, ns: I64)
    requires Acceptable(devices, false, x) && Acceptable(devices, false, y)
    ensures Filter(Passes(devices, false, ns), [x, y]) ==
            (if AbsDiffI64(x.minNs, ns) > LATENCY_TOLERANCE_NS then [x] else [])
            + (if AbsDiffI64(y.minNs, ns) > LATENCY_TOLERANCE_NS then [y] else [])
  {
    FilterPair(Passes(devices, false, ns), x, y);
  }

  lemma SomeDistances()
    ensures AbsDiffI64(-1, I64_MAX) <= LATENCY_TOLERANCE_NS < AbsDiffI64(10_000_000, I64_MAX)
    ensures AbsDiffI64(10_000_000, 10_000_000) <= LATENCY_TOLERANCE_NS < AbsDiffI64(-1, 10_000_000)
  {
    ToleranceTestExact(-1, I64_MAX);
    ToleranceTestExact(10_000_000, I64_MAX);
    ToleranceTestExact(10_000_000, 10_000_000);
    ToleranceTestExact(-1, 10_000_000);
  }

  lemma FilterPair(p: LatencyRecord -> bool, x: LatencyRecord, y: LatencyRecord)
    ensures Filter(p, [x, y]) == (if p(x) then [x] else []) + (if p(y) then [y] else [])
  {
    assert [x, y] == [x] + [y];
    FilterAppend(p, [x], [y]);
    assert [x][1..] == [] && [y][1..] == [];
  }
}
