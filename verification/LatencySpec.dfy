/** What retrieval, device selection and endpoint selection come to, said on the fields of the
    records and devices alone. */
module LatencySpec {
  import opened Basics
  import opened Onchain
  import opened StableSort
  import opened Latency

  // --- the words of the specification ---

  /** The record is of a listed, activated device. */
  ghost predicate Listed(r: LatencyRecord, devices: Devices) {
    r.device.Encoded? && r.device.pk in devices && devices[r.device.pk].status == Activated
  }

  /** A client can be given `ip` on the device. */
  ghost predicate CanServe(d: Device, ip: Ip) {
    || ip == d.publicIp
    || exists iface <- d.interfaces ::
         iface.userTunnelEndpoint && !(iface.ipNet.ip == 0 && iface.ipNet.prefixLen == 0) && iface.ipNet.ip == ip
  }

  /** The device has an address that is not taken. */
  ghost predicate HasSpare(d: Device, excludeIps: seq<Ip>) {
    exists ip :: CanServe(d, ip) && ip !in excludeIps
  }

  ghost predicate MayTakeUser(d: Device) {
    && d.status == Activated && d.deviceType != Transit
    && (d.usersCount + d.reservedSeats) % 65536 < d.maxUsers
  }

  /** The record takes part in the selection. */
  ghost predicate Contends(r: LatencyRecord, results: seq<LatencyRecord>, devices: Devices, excludeIps: seq<Ip>) {
    r in results && r.reachable && Listed(r, devices) && HasSpare(devices[r.device.pk], excludeIps)
  }

  /** It takes part, and its device may be switched to. */
  ghost predicate MayWin(r: LatencyRecord, results: seq<LatencyRecord>, devices: Devices, ignoreUnprovisionable: bool,
                         excludeIps: seq<Ip>) {
    Contends(r, results, devices, excludeIps) && (ignoreUnprovisionable ==> MayTakeUser(devices[r.device.pk]))
  }

  /** Least latency first, the average deciding ties. */
  ghost predicate NoSlower(a: LatencyRecord, b: LatencyRecord) {
    a.minNs < b.minNs || (a.minNs == b.minNs && a.avgNs <= b.avgNs)
  }

  // --- endpoints of a device ---

  lemma {:induction false} InterfaceIpsMembers(interfaces: seq<Interface>)
    ensures forall ip :: ip in InterfaceIps(interfaces) <==>
              exists iface <- interfaces :: IsEndpointInterface(iface) && iface.ipNet.ip == ip
  {
    if interfaces != [] {
      InterfaceIpsMembers(interfaces[1..]);
      assert interfaces == [interfaces[0]] + interfaces[1..];
    }
  }

  lemma EndpointsAre(d: Device)
    ensures forall ip :: ip in TunnelEndpoints(d) <==> CanServe(d, ip)
  {
    InterfaceIpsMembers(d.interfaces);
    assert forall iface: Interface :: IsEndpointInterface(iface) <==>
        iface.userTunnelEndpoint && !(iface.ipNet.ip == 0 && iface.ipNet.prefixLen == 0);
  }

  lemma SpareIff(d: Device, excludeIps: seq<Ip>)
    ensures DeviceHasAvailableEndpoint(d, excludeIps) <==> HasSpare(d, excludeIps)
  {
    EndpointsAre(d);
  }

  /** Which records contend. */
  lemma ContendersAre(results: seq<LatencyRecord>, devices: Devices, excludeIps: seq<Ip>)
    ensures forall r :: r in Contenders(results, devices, excludeIps) <==> Contends(r, results, devices, excludeIps)
  {
    var kept := Filter(Kept(devices, true), results);
    FilterMembers(Kept(devices, true), results);
    FilterMembers(HasFreeEndpoint(devices, excludeIps), kept);
    forall r ensures r in Contenders(results, devices, excludeIps) <==> Contends(r, results, devices, excludeIps) {
      assert Kept(devices, true)(r) <==> OfActivatedDevice(devices)(r) && r.reachable;
      assert r in kept <==> r in results && r.reachable && Listed(r, devices);
      if Listed(r, devices) {
        SpareIff(devices[r.device.pk], excludeIps);
        assert HasFreeEndpoint(devices, excludeIps)(r) <==> HasSpare(devices[r.device.pk], excludeIps);
      }
    }
  }

  lemma WinnersAre(results: seq<LatencyRecord>, devices: Devices, ignoreUnprovisionable: bool, excludeIps: seq<Ip>)
    ensures
      var acceptable := Filter(AcceptableRecords(devices, ignoreUnprovisionable),
                               Contenders(results, devices, excludeIps));
      forall r :: r in acceptable <==> MayWin(r, results, devices, ignoreUnprovisionable, excludeIps)
  {
    ContendersAre(results, devices, excludeIps);
    FilterMembers(AcceptableRecords(devices, ignoreUnprovisionable), Contenders(results, devices, excludeIps));
  }

  // --- the selection ---

  /** What a selected record promises. It contends. If it is not the current device's, it may be
      switched to, none that may is faster, and it beats everything the current device has by more
      than 5 ms. If it is, none that may be switched to beats it by more than 5 ms, and it is the
      current device's fastest. */
  ghost predicate IsBest(r: LatencyRecord, results: seq<LatencyRecord>, devices: Devices, ignoreUnprovisionable: bool,
                         current: Option<Pubkey>, excludeIps: seq<Ip>)
  {
    && Contends(r, results, devices, excludeIps)
    && (forall x :: MayWin(x, results, devices, ignoreUnprovisionable, excludeIps) ==> r.minNs <= x.minNs + 5_000_000)
    && if current == Some(r.device.pk)
       then
         forall c :: Contends(c, results, devices, excludeIps) && current == Some(c.device.pk) ==> NoSlower(r, c)
       else
         && MayWin(r, results, devices, ignoreUnprovisionable, excludeIps)
         && (forall x :: MayWin(x, results, devices, ignoreUnprovisionable, excludeIps) ==> NoSlower(r, x))
         && (forall c :: Contends(c, results, devices, excludeIps) && current == Some(c.device.pk) ==>
               r.minNs + 5_000_000 < c.minNs)
  }

  /** Nothing can be selected: the current device has no record, and none that may be switched to is
      faster than the largest latency less 5 ms. */
  ghost predicate NothingToSelect(results: seq<LatencyRecord>, devices: Devices, ignoreUnprovisionable: bool,
                                  current: Option<Pubkey>, excludeIps: seq<Ip>)
  {
    && (forall c :: Contends(c, results, devices, excludeIps) ==> current != Some(c.device.pk))
    && (forall x :: MayWin(x, results, devices, ignoreUnprovisionable, excludeIps) ==>
          x.minNs + 5_000_000 >= 0x7FFF_FFFF_FFFF_FFFF)
  }

  lemma NoSlowerThanFastest(s: seq<LatencyRecord>)
    requires s != []
    ensures Fastest(s) in s && forall r <- s :: NoSlower(Fastest(s), r)
  {
    OrdersArePreorders();
    SortOrders(MinThenAvg, s);
    var ranked := Sort(MinThenAvg, s);
    forall r | r in s ensures NoSlower(Fastest(s), r) {
      var k :| 0 <= k < |ranked| && ranked[k] == r;
      assert k > 0 ==> MinThenAvg(ranked[0], ranked[k]);
    }
    assert ranked[0] in ranked;
  }

  /** The declarative choice, given who may win and what the current device has. */
  lemma ChoiceAmong(contenders: seq<LatencyRecord>, devices: Devices, ignoreUnprovisionable: bool,
                    current: Option<Pubkey>)
    ensures
      var choice := HysteresisChoice(contenders, devices, ignoreUnprovisionable, current);
      var acceptable := Filter(AcceptableRecords(devices, ignoreUnprovisionable), contenders);
      var mine := Mine(contenders, current);
      if choice.Selected? then
        var r := choice.record;
        && (forall x <- acceptable :: r.minNs <= x.minNs + 5_000_000)
        && (|| (r in mine && forall c <- mine :: NoSlower(r, c))
            || (r in acceptable && (forall x <- acceptable :: NoSlower(r, x))
                && forall c <- mine :: r.minNs + 5_000_000 < c.minNs))
      else
        && choice.error == NoSuitableDevice && mine == []
        && forall x <- acceptable :: x.minNs + 5_000_000 >= 0x7FFF_FFFF_FFFF_FFFF
  {
    var acceptable := Filter(AcceptableRecords(devices, ignoreUnprovisionable), contenders);
    var mine := Mine(contenders, current);
    if acceptable != [] {
      NoSlowerThanFastest(acceptable);
    }
    if mine != [] {
      NoSlowerThanFastest(mine);
    }
  }

  lemma MineAre(results: seq<LatencyRecord>, devices: Devices, current: Option<Pubkey>, excludeIps: seq<Ip>)
    ensures forall c :: c in Mine(Contenders(results, devices, excludeIps), current) <==>
                        Contends(c, results, devices, excludeIps) && current == Some(c.device.pk)
  {
    ContendersAre(results, devices, excludeIps);
    if current.Some? {
      FilterMembers(IsDevice(current.value), Contenders(results, devices, excludeIps));
    }
  }

  /** The declarative choice, on fields. */
  lemma ChoiceIsBest(results: seq<LatencyRecord>, devices: Devices, ignoreUnprovisionable: bool,
                     current: Option<Pubkey>, excludeIps: seq<Ip>)
    ensures
      var choice := HysteresisChoice(Contenders(results, devices, excludeIps), devices, ignoreUnprovisionable, current);
      if choice.Selected? then IsBest(choice.record, results, devices, ignoreUnprovisionable, current, excludeIps)
      else
        && choice.error == NoSuitableDevice
        && NothingToSelect(results, devices, ignoreUnprovisionable, current, excludeIps)
  {
    ChoiceAmong(Contenders(results, devices, excludeIps), devices, ignoreUnprovisionable, current);
    WinnersAre(results, devices, ignoreUnprovisionable, excludeIps);
    MineAre(results, devices, current, excludeIps);
  }

  /** Why nothing was retrieved or left: no record of a listed activated device; those there are not
      reachable, and how many there are; or every such device is in use up to its last address. */
  ghost predicate Explains(error: SelectError, results: seq<LatencyRecord>, devices: Devices) {
    match error
    case Retrieve(NoneActivated) => forall r <- results :: !Listed(r, devices)
    case Retrieve(NoneReachable(n)) =>
      && n == |Filter((r: LatencyRecord) => r.device.Encoded? && r.device.pk in devices
                                            && devices[r.device.pk].status == Activated, results)| > 0
      && forall r <- results :: Listed(r, devices) ==> !r.reachable
    case NothingAfterFiltering => exists r <- results :: Listed(r, devices) && r.reachable
    case _ => false
  }

  /** What a ready answer leads to. The selected record is the best one, whenever the test of the loop
      is right about the fastest acceptable record, as it is for non-negative latencies; otherwise the
      error says why there is none. */
  lemma SelectionIsBest(results: seq<LatencyRecord>, devices: Devices, ignoreUnprovisionable: bool,
                        current: Option<Pubkey>, excludeIps: seq<Ip>)
    requires NonNegative(results)
             || TestIsRight(Contenders(results, devices, excludeIps), devices, ignoreUnprovisionable, current)
    ensures
      var selection := BestOf(results, devices, ignoreUnprovisionable, current, excludeIps);
      match selection
      case Selected(r) => IsBest(r, results, devices, ignoreUnprovisionable, current, excludeIps)
      case SelectFailed(NoSuitableDevice) =>
        && (exists r :: Contends(r, results, devices, excludeIps))
        && NothingToSelect(results, devices, ignoreUnprovisionable, current, excludeIps)
      case SelectFailed(e) =>
        && (forall r :: !Contends(r, results, devices, excludeIps))
        && Explains(e, results, devices)
  {
    var contenders := Contenders(results, devices, excludeIps);
    ContendersAre(results, devices, excludeIps);
    if contenders != [] {
      assert contenders[0] in contenders;
      BestOfIsHysteresisChoiceIff(results, devices, ignoreUnprovisionable, current, excludeIps);
      ChoiceIsBest(results, devices, ignoreUnprovisionable, current, excludeIps);
    } else {
      NoContender(results, devices, ignoreUnprovisionable, current, excludeIps);
    }
  }

  lemma NoContender(results: seq<LatencyRecord>, devices: Devices, ignoreUnprovisionable: bool,
                    current: Option<Pubkey>, excludeIps: seq<Ip>)
    requires Contenders(results, devices, excludeIps) == []
    ensures
      var selection := BestOf(results, devices, ignoreUnprovisionable, current, excludeIps);
      selection.SelectFailed? && selection.error != NoSuitableDevice && Explains(selection.error, results, devices)
  {
    var kept := Filter(Kept(devices, true), results);
    var activated := Filter(OfActivatedDevice(devices), results);
    FilterMembers(Kept(devices, true), results);
    FilterMembers(OfActivatedDevice(devices), results);
    FilterSame(OfActivatedDevice(devices), (r: LatencyRecord) => r.device.Encoded? && r.device.pk in devices
                                            && devices[r.device.pk].status == Activated, results);
    if kept != [] {
      RankedContenders(results, devices, excludeIps);
      assert kept[0] in kept;
    } else {
      assert forall r <- results :: Listed(r, devices) ==> !Kept(devices, true)(r) ==> !r.reachable;
    }
    assert activated != [] ==> activated[0] in activated;
  }

  // --- retrieval ---

  /** The answer a retrieval works with: all before it were unfinished and came in time; it is
      finished, or an error, or came after 60 seconds or more. */
  lemma SettledIs(daemon: Session) returns (i: nat)
    requires daemon.Valid()
    ensures i <= 60 && daemon.Settled() == daemon.answer(i)
    ensures forall j :: 0 <= j < i ==> daemon.answer(j).Polled? && !daemon.answer(j).ready && daemon.elapsed(j) < 60
    ensures daemon.answer(i).PollFailed? || daemon.answer(i).ready || daemon.elapsed(i) >= 60
  {
    i := 0;
    while KeepsWaiting(daemon.answer, daemon.elapsed, i)
      invariant i <= 60 && daemon.Settled() == daemon.SettledFrom(i)
      invariant forall j :: 0 <= j < i ==>
                  daemon.answer(j).Polled? && !daemon.answer(j).ready && daemon.elapsed(j) < 60
      decreases 60 - i
    {
      assert daemon.elapsed(i) >= i;
      i := i + 1;
    }
  }

  /** Reachable first, then least latency. */
  ghost predicate NoLater(a: LatencyRecord, b: LatencyRecord) {
    (a.reachable && !b.reachable) || (a.reachable == b.reachable && NoSlower(a, b))
  }

  /** A retrieved ranking holds the records of listed activated devices, the unreachable ones only if
      they are asked for, as often as the answer does; it is ordered, and records tied in every key
      keep the order of the answer. */
  lemma RankingIs(results: seq<LatencyRecord>, devices: Devices, reachableOnly: bool)
    requires Ranking(results, devices, reachableOnly).Retrieved?
    ensures
      var ranked := Ranking(results, devices, reachableOnly).latencies;
      && (forall r :: r in ranked <==> r in results && Listed(r, devices) && (reachableOnly ==> r.reachable))
      && (forall i, j :: 0 <= i < j < |ranked| ==> NoLater(ranked[i], ranked[j]))
      && forall k :: k in ranked ==>
           Filter(SameKeys(k), ranked) == Filter(Both(Kept(devices, reachableOnly), SameKeys(k)), results)
  {
    var kept := Filter(Kept(devices, reachableOnly), results);
    var ranked := Sort(ReachableThenLatency, kept);
    OrdersArePreorders();
    SortOrders(ReachableThenLatency, kept);
    FilterMembers(Kept(devices, reachableOnly), results);
    forall r ensures r in ranked <==> r in results && Listed(r, devices) && (reachableOnly ==> r.reachable) {
      assert Kept(devices, reachableOnly)(r) <==> OfActivatedDevice(devices)(r) && (reachableOnly ==> r.reachable);
    }
    forall i, j | 0 <= i < j < |ranked| ensures NoLater(ranked[i], ranked[j]) {
      assert ReachableThenLatency(ranked[i], ranked[j]);
    }
    forall k | k in ranked
      ensures Filter(SameKeys(k), ranked) == Filter(Both(Kept(devices, reachableOnly), SameKeys(k)), results)
    {
      SortIsStable(ReachableThenLatency, kept, k);
      FilterSame(Ties(ReachableThenLatency, k), SameKeys(k), ranked);
      FilterSame(Ties(ReachableThenLatency, k), SameKeys(k), kept);
      FilterTwice(Kept(devices, reachableOnly), SameKeys(k), results);
    }
  }

  function SameKeys(k: LatencyRecord): LatencyRecord -> bool {
    (r: LatencyRecord) => r.reachable == k.reachable && r.minNs == k.minNs && r.avgNs == k.avgNs
  }

  // --- the endpoint ---

  /** The record can supply an endpoint on the device `pk`. */
  ghost predicate Supplies(r: LatencyRecord, pk: Pubkey, devices: Devices, excludeIps: seq<Ip>) {
    && r.device == Encoded(pk) && Listed(r, devices)
    && r.deviceIp.Some? && r.deviceIp.value !in excludeIps
  }

  /** Least latency, then least average, then reachable, then the order of the answer. */
  ghost predicate Precedes(results: seq<LatencyRecord>, i: nat, j: nat)
    requires i < |results| && j < |results|
  {
    var a, b := results[i], results[j];
    || a.minNs < b.minNs
    || (a.minNs == b.minNs && a.avgNs < b.avgNs)
    || (a.minNs == b.minNs && a.avgNs == b.avgNs && a.reachable && !b.reachable)
    || (a.minNs == b.minNs && a.avgNs == b.avgNs && a.reachable == b.reachable && i <= j)
  }

  /** The endpoint is that of the first record, in the order above, among those that can supply one;
      without any it is the public IP, unless that is excluded. */
  lemma EndpointIs(results: seq<LatencyRecord>, devices: Devices, pk: Pubkey, publicIp: Ip, excludeIps: seq<Ip>)
    returns (k: nat)
    requires Ranking(results, devices, false).Retrieved?
    ensures
      var endpoint := BestEndpoint(Ranking(results, devices, false).latencies, Encoded(pk), publicIp, excludeIps);
      if k < |results| then
        && Supplies(results[k], pk, devices, excludeIps) && results[k].deviceIp == Some(endpoint)
        && forall j :: 0 <= j < |results| && Supplies(results[j], pk, devices, excludeIps) ==> Precedes(results, k, j)
      else
        && (forall r <- results :: !Supplies(r, pk, devices, excludeIps))
        && endpoint == if publicIp in excludeIps then UNSPECIFIED else publicIp
  {
    var p := Both(OfActivatedDevice(devices), Usable(Encoded(pk), excludeIps));
    FilterTwice(OfActivatedDevice(devices), Usable(Encoded(pk), excludeIps), results);
    FilterMembers(p, results);
    assert forall r :: p(r) <==> Supplies(r, pk, devices, excludeIps);
    if Filter(p, results) == [] {
      k := |results|;
      NoneUsable(results, devices, pk, excludeIps);
    } else {
      var i := EndpointIsLexicographicMin(results, devices, pk, publicIp, excludeIps);
      k := FilterPosition(p, results, i);
      forall j | 0 <= j < |results| && Supplies(results[j], pk, devices, excludeIps) ensures Precedes(results, k, j) {
        FirstMinPrecedes(p, results, i, k, j);
      }
    }
  }

  lemma NoneUsable(results: seq<LatencyRecord>, devices: Devices, pk: Pubkey, excludeIps: seq<Ip>)
    requires Ranking(results, devices, false).Retrieved?
    requires forall r <- results :: !Supplies(r, pk, devices, excludeIps)
    ensures Filter(Usable(Encoded(pk), excludeIps), Ranking(results, devices, false).latencies) == []
  {
    var ranked := Ranking(results, devices, false).latencies;
    RankingIs(results, devices, false);
    FilterMembers(Usable(Encoded(pk), excludeIps), ranked);
    var usable := Filter(Usable(Encoded(pk), excludeIps), ranked);
    assert usable != [] ==> usable[0] in usable && Supplies(usable[0], pk, devices, excludeIps);
  }

  lemma LexMeans(a: LatencyRecord, b: LatencyRecord)
    ensures Lex(MinThenAvg, ReachableFirst)(a, b)
            <==> NoSlower(a, b) && (NoSlower(b, a) ==> b.reachable ==> a.reachable)
  {
    var first, second: (LatencyRecord, LatencyRecord) -> bool := MinThenAvg, ReachableFirst;
    assert first(a, b) == NoSlower(a, b) && first(b, a) == NoSlower(b, a);
    assert second(a, b) == (b.reachable ==> a.reachable);
    assert Lex(first, second)(a, b) == (first(a, b) && (first(b, a) ==> second(a, b)));
  }

  lemma PrecedesIff(results: seq<LatencyRecord>, k: nat, j: nat)
    requires k < |results| && j < |results|
    requires Lex(MinThenAvg, ReachableFirst)(results[k], results[j])
    requires j < k ==> !Lex(MinThenAvg, ReachableFirst)(results[j], results[k])
    ensures Precedes(results, k, j)
  {
    LexMeans(results[k], results[j]);
    LexMeans(results[j], results[k]);
  }

  lemma FirstMinPrecedes(p: LatencyRecord -> bool, results: seq<LatencyRecord>, i: nat, k: nat, j: nat)
    requires IsFirstMin(Lex(MinThenAvg, ReachableFirst), Filter(p, results), i)
    requires k < |results| && results[k] == Filter(p, results)[i] && Filter(p, results[..k]) == Filter(p, results)[..i]
    requires j < |results| && p(results[j])
    ensures Precedes(results, k, j)
  {
    FirstMinAt(Lex(MinThenAvg, ReachableFirst), p, results, i, k, j);
    PrecedesIff(results, k, j);
  }

  // --- records the loop cannot use ---

  /** The loop fails at the first record with a bad key or of an unknown device, if it meets no current
      record and none to switch to before. */
  lemma WalkFailsAt(latencies: seq<LatencyRecord>, devices: Devices, ignoreUnprovisionable: bool, k: nat)
    requires k < |latencies|
    requires forall j :: 0 <= j < k ==> latencies[j].device.Encoded? && latencies[j].device.pk in devices
    requires forall j :: 0 <= j < k ==> !Passes(devices, ignoreUnprovisionable, I64_MAX)(latencies[j])
    ensures latencies[k].device.Malformed? ==>
              WalkFrom(latencies, devices, ignoreUnprovisionable, None) == SelectFailed(BadKey)
    ensures latencies[k].device.Encoded? && latencies[k].device.pk !in devices ==>
              WalkFrom(latencies, devices, ignoreUnprovisionable, None) == SelectFailed(UnknownDevice)
  {
    WalkSkips(latencies, devices, ignoreUnprovisionable, 0, k);
  }

  lemma {:induction false} WalkSkips(latencies: seq<LatencyRecord>, devices: Devices, ignoreUnprovisionable: bool,
                                     i: nat, k: nat)
    requires i <= k < |latencies|
    requires forall j :: i <= j < k ==> latencies[j].device.Encoded? && latencies[j].device.pk in devices
    requires forall j :: i <= j < k ==> !Passes(devices, ignoreUnprovisionable, I64_MAX)(latencies[j])
    ensures Walk(latencies, devices, ignoreUnprovisionable, None, I64_MAX, i)
            == Walk(latencies, devices, ignoreUnprovisionable, None, I64_MAX, k)
    decreases k - i
  {
    if i < k {
      assert !Passes(devices, ignoreUnprovisionable, I64_MAX)(latencies[i]);
      WalkSkips(latencies, devices, ignoreUnprovisionable, i + 1, k);
    }
  }
}
