/** Where a new multicast publisher goes: the publisher's own device while it has room, else the
    nearest device that has; and the run that creates publishers one after the other. */
module NearestDevice {
  import opened Basics
  import opened DzLedger
  import opened Onchain
  import opened StableSort

  predicate HasCapacity(d: DzDeviceInfo) {
    && d.maxUsers != 0
    && AddU16(d.usersCount, d.reservedSeats) < d.maxUsers
    && !(d.maxPublishers > 0 && d.publishersCount >= d.maxPublishers)
  }

  // --- ranking ---

  datatype Score = Finite(value: real) | Infinite {
    predicate AtMost(other: Score) {
      other.Infinite? || (Finite? && value <= other.value)
    }
  }

  /** Rank by measured latency, or by the great-circle distance in kilometres. */
  datatype Metric = ByLatency(latencies: LatencyMap) | ByDistance(distance: (Pubkey, Pubkey) -> real)

  function Proximity(from: Pubkey, to: Pubkey, metric: Metric): Score {
    match metric
    case ByDistance(distance) => Finite(distance(from, to))
    case ByLatency(latencies) =>
      if (from, to) in latencies && (to, from) in latencies then
        Finite(if latencies[(from, to)] <= latencies[(to, from)] then latencies[(from, to)] as real
               else latencies[(to, from)] as real)
      else if (from, to) in latencies then Finite(latencies[(from, to)] as real)
      else if (to, from) in latencies then Finite(latencies[(to, from)] as real)
      else Infinite
  }

  function Closer(home: Pubkey, metric: Metric): (DzDeviceInfo, DzDeviceInfo) -> bool {
    (a: DzDeviceInfo, b: DzDeviceInfo) => Proximity(home, a.pk, metric).AtMost(Proximity(home, b.pk, metric))
  }

  /** The first of the least elements. */
  function MinBy(le: (DzDeviceInfo, DzDeviceInfo) -> bool, s: seq<DzDeviceInfo>): Option<DzDeviceInfo> {
    if s == [] then None
    else
      var best, last := MinBy(le, s[..|s| - 1]), s[|s| - 1];
      if best.Some? && le(best.value, last) then best else Some(last)
  }

  type Devices = map<Pubkey, DzDeviceInfo>

  /** Accounts are keyed by their own address. */
  ghost predicate WellKeyed(devices: Devices) {
    forall k :: k in devices ==> devices[k].pk == k
  }

  /** `order` lists the keys in the map's iteration order. */
  ghost predicate IsOrderOf(order: seq<Pubkey>, devices: Devices) {
    NoDuplicates(order) && forall k :: k in order <==> k in devices
  }

  function Values(devices: Devices, order: seq<Pubkey>): seq<DzDeviceInfo>
    requires forall k :: k in order ==> k in devices
  {
    if order == [] then [] else Values(devices, order[..|order| - 1]) + [devices[order[|order| - 1]]]
  }

  function FreeElsewhere(home: Pubkey): DzDeviceInfo -> bool {
    (d: DzDeviceInfo) => d.pk != home && HasCapacity(d)
  }

  function FindNearest(home: Pubkey, devices: Devices, order: seq<Pubkey>, metric: Metric): Option<DzDeviceInfo>
    requires forall k :: k in order ==> k in devices
  {
    if home !in devices then None
    else if HasCapacity(devices[home]) then Some(devices[home])
    else MinBy(Closer(home, metric), Filter(FreeElsewhere(home), Values(devices, order)))
  }

  lemma {:induction false} ValuesMembers(devices: Devices, order: seq<Pubkey>)
    requires forall k :: k in order ==> k in devices
    ensures forall d :: d in Values(devices, order) <==> exists k <- order :: devices[k] == d
  {
    if order != [] {
      ValuesMembers(devices, order[..|order| - 1]);
      assert order == order[..|order| - 1] + [order[|order| - 1]];
    }
  }

  lemma {:induction false} MinByIsFirstMin(le: (DzDeviceInfo, DzDeviceInfo) -> bool, s: seq<DzDeviceInfo>)
    requires TotalPreorder(le)
    ensures MinBy(le, s).None? <==> s == []
    ensures s != [] ==> exists i :: IsFirstMin(le, s, i) && MinBy(le, s) == Some(s[i])
  {
    if |s| == 1 {
      assert IsFirstMin(le, s, 0);
    } else if s != [] {
      var init, last := s[..|s| - 1], s[|s| - 1];
      MinByIsFirstMin(le, init);
      var i :| IsFirstMin(le, init, i) && MinBy(le, init) == Some(init[i]);
      if le(init[i], last) {
        assert IsFirstMin(le, s, i);
      } else {
        forall j | 0 <= j < |s| - 1 ensures le(last, s[j]) && !le(s[j], last) {
          assert s[j] == init[j];
        }
        assert IsFirstMin(le, s, |s| - 1);
      }
    }
  }

  lemma CloserIsPreorder(home: Pubkey, metric: Metric)
    ensures TotalPreorder(Closer(home, metric))
  {
  }

  /** A full home is replaced by the first device in iteration order of those nearest to it
      among the devices with room; there is none exactly when no device has room. */
  lemma NearestIsBest(home: Pubkey, devices: Devices, order: seq<Pubkey>, metric: Metric)
    requires WellKeyed(devices) && IsOrderOf(order, devices)
    ensures
      var found := FindNearest(home, devices, order, metric);
      && (found.Some? <==> home in devices && exists k :: k in devices && HasCapacity(devices[k]))
      && (found.Some? ==>
            && found.value.pk in devices && devices[found.value.pk] == found.value && HasCapacity(found.value)
            && (found.value.pk == home <==> HasCapacity(devices[home]))
            && (found.value.pk != home ==> forall k :: k in devices && HasCapacity(devices[k]) ==>
                  Proximity(home, found.value.pk, metric).AtMost(Proximity(home, k, metric))))
    ensures home in devices && !HasCapacity(devices[home]) ==>
      var free := Filter(FreeElsewhere(home), Values(devices, order));
      free != [] ==> exists i ::
        IsFirstMin(Closer(home, metric), free, i) && FindNearest(home, devices, order, metric) == Some(free[i])
  {
    if home in devices && !HasCapacity(devices[home]) {
      var free, le := Filter(FreeElsewhere(home), Values(devices, order)), Closer(home, metric);
      ValuesMembers(devices, order);
      FilterMembers(FreeElsewhere(home), Values(devices, order));
      CloserIsPreorder(home, metric);
      MinByIsFirstMin(le, free);
      forall k | k in devices && HasCapacity(devices[k]) ensures devices[k] in free {
        assert k in order;
      }
      if free != [] {
        var i :| IsFirstMin(le, free, i) && MinBy(le, free) == Some(free[i]);
        assert free[i] in free;
        forall k | k in devices && HasCapacity(devices[k]) ensures le(free[i], devices[k]) {
          var j :| 0 <= j < |free| && free[j] == devices[k];
        }
      }
    }
  }

  lemma {:induction false} ValuesAt(devices: Devices, order: seq<Pubkey>)
    requires forall k :: k in order ==> k in devices
    ensures |Values(devices, order)| == |order|
    ensures forall i :: 0 <= i < |order| ==> Values(devices, order)[i] == devices[order[i]]
  {
    if order != [] {
      ValuesAt(devices, order[..|order| - 1]);
    }
  }

  /** In the map's iteration order, every device with room before the one chosen is farther from the
      home. `p` is its place in that order. */
  lemma NearestIsFirst(home: Pubkey, devices: Devices, order: seq<Pubkey>, metric: Metric) returns (p: nat)
    requires WellKeyed(devices) && IsOrderOf(order, devices)
    requires home in devices && !HasCapacity(devices[home]) && FindNearest(home, devices, order, metric).Some?
    ensures p < |order| && order[p] == FindNearest(home, devices, order, metric).value.pk
    ensures forall q :: 0 <= q < p && HasCapacity(devices[order[q]]) ==>
              !Proximity(home, order[q], metric).AtMost(Proximity(home, order[p], metric))
  {
    var values, le := Values(devices, order), Closer(home, metric);
    var free := Filter(FreeElsewhere(home), values);
    ValuesAt(devices, order);
    CloserIsPreorder(home, metric);
    MinByIsFirstMin(le, free);
    var i :| IsFirstMin(le, free, i) && MinBy(le, free) == Some(free[i]);
    p := FilterPosition(FreeElsewhere(home), values, i);
    forall q | 0 <= q < p && HasCapacity(devices[order[q]])
      ensures !Proximity(home, order[q], metric).AtMost(Proximity(home, order[p], metric))
    {
      FirstMinAt(le, FreeElsewhere(home), values, i, p, q);
    }
  }

  /** By distance, the device chosen for a full home is no farther from it than any other with room. */
  lemma NearestByDistance(home: Pubkey, devices: Devices, order: seq<Pubkey>, distance: (Pubkey, Pubkey) -> real,
                          other: Pubkey)
    requires WellKeyed(devices) && IsOrderOf(order, devices)
    requires home in devices && !HasCapacity(devices[home])
    requires other in devices && HasCapacity(devices[other])
    ensures
      var found := FindNearest(home, devices, order, ByDistance(distance));
      found.Some? && distance(home, found.value.pk) <= distance(home, other)
  {
    NearestIsBest(home, devices, order, ByDistance(distance));
  }

  /** `us` was measured between two devices, in one direction or the other. */
  ghost predicate Measured(accounts: seq<Option<LatencySamples>>, a: Pubkey, b: Pubkey, us: nat) {
    Sampled(accounts, (a, b), us) || Sampled(accounts, (b, a), us)
  }

  /** In latency mode the score is the least measurement in either direction, hence symmetric;
      devices never measured against each other are infinitely far apart. */
  lemma ProximityIsLeastMeasured(accounts: seq<Option<LatencySamples>>, latencies: LatencyMap,
                                 a: Pubkey, b: Pubkey)
    requires IsMinimumMap(accounts, latencies)
    ensures
      var score := Proximity(a, b, ByLatency(latencies));
      && score == Proximity(b, a, ByLatency(latencies))
      && (score.Infinite? ==> forall us :: !Measured(accounts, a, b, us))
      && (score.Finite? ==> exists least: nat :: score.value == least as real && Measured(accounts, a, b, least)
                                                 && forall us :: Measured(accounts, a, b, us) ==> least <= us)
  {
    var ab, ba := (a, b), (b, a);
    if ab in latencies && (ba in latencies ==> latencies[ab] <= latencies[ba]) {
      var least := latencies[ab];
      assert IsLeastSample(accounts, ab, least);
      assert ba in latencies ==> IsLeastSample(accounts, ba, latencies[ba]);
      assert Measured(accounts, a, b, least);
    } else if ba in latencies {
      var least := latencies[ba];
      assert IsLeastSample(accounts, ba, least);
      assert ab in latencies ==> IsLeastSample(accounts, ab, latencies[ab]);
      assert Measured(accounts, a, b, least);
    }
  }

  /** From telemetry to placement: no device with room was ever measured closer to a full home
      than the one chosen for it. */
  lemma NearestWasMeasuredClosest(
    home: Pubkey, devices: Devices, order: seq<Pubkey>, accounts: seq<Option<LatencySamples>>, latencies: LatencyMap,
    other: Pubkey, us: nat)
    requires WellKeyed(devices) && IsOrderOf(order, devices) && IsMinimumMap(accounts, latencies)
    requires home in devices && !HasCapacity(devices[home])
    requires other in devices && HasCapacity(devices[other]) && Measured(accounts, home, other, us)
    ensures
      var found := FindNearest(home, devices, order, ByLatency(latencies));
      found.Some? && exists us': nat :: Measured(accounts, home, found.value.pk, us') && us' <= us
  {
    var metric := ByLatency(latencies);
    NearestIsBest(home, devices, order, metric);
    var found := FindNearest(home, devices, order, metric);
    ProximityIsLeastMeasured(accounts, latencies, home, other);
    ProximityIsLeastMeasured(accounts, latencies, home, found.value.pk);
  }

  // --- room ---

  /** How many more publishers fit, counted without machine arithmetic. */
  function FreeSlots(d: DzDeviceInfo): nat {
    var taken := d.usersCount + d.reservedSeats;
    var seats := if taken < d.maxUsers then d.maxUsers - taken else 0;
    if d.maxPublishers == 0 then seats
    else if d.publishersCount >= d.maxPublishers then 0
    else if seats < d.maxPublishers - d.publishersCount then seats
    else d.maxPublishers - d.publishersCount
  }

  /** The capacity test agrees with the number of free slots exactly when the 16-bit sum of users
      and reserved seats either does not wrap, or wraps to something that still looks full, or the
      publisher limit refuses anyway. */
  lemma CapacityIsFreeSlots(d: DzDeviceInfo)
    ensures
      var taken := d.usersCount + d.reservedSeats;
      (HasCapacity(d) <==> FreeSlots(d) > 0) <==>
      || taken < U16_MODULUS
      || taken - U16_MODULUS >= d.maxUsers
      || (d.maxPublishers > 0 && d.publishersCount >= d.maxPublishers)
  {
    var taken := d.usersCount + d.reservedSeats;
    assert taken < U16_MODULUS ==> AddU16(d.usersCount, d.reservedSeats) == taken;
    assert taken >= U16_MODULUS ==> AddU16(d.usersCount, d.reservedSeats) == taken - U16_MODULUS;
  }

  /** A full device whose seat count wraps is taken for one with room. */
  lemma WrappedSeatsLookFree(d: DzDeviceInfo)
    requires d.usersCount == 65535 && d.reservedSeats == 1 && d.maxUsers == 65535 && d.maxPublishers == 0
    ensures HasCapacity(d) && FreeSlots(d) == 0
  {
    assert AddU16(65535, 1) == 0;
  }

  /** Users and reserved seats add up without overflow. */
  ghost predicate SeatsFit(d: DzDeviceInfo) {
    d.usersCount + d.reservedSeats < U16_MODULUS
  }

  /** The capacity test is right about the device; `CapacityIsFreeSlots` says when. */
  ghost predicate TestIsRight(d: DzDeviceInfo) {
    HasCapacity(d) <==> FreeSlots(d) > 0
  }

  ghost predicate AllTestsRight(devices: Devices) {
    forall k :: k in devices ==> TestIsRight(devices[k])
  }

  function WithOneMore(d: DzDeviceInfo): DzDeviceInfo {
    d.(usersCount := AddU16(d.usersCount, 1), publishersCount := AddU16(d.publishersCount, 1))
  }

  lemma OneMoreTakesOneSlot(d: DzDeviceInfo)
    requires TestIsRight(d) && HasCapacity(d)
    ensures TestIsRight(WithOneMore(d)) && FreeSlots(WithOneMore(d)) == FreeSlots(d) - 1
    ensures WithOneMore(d) == d.(usersCount := d.usersCount + 1, publishersCount := AddU16(d.publishersCount, 1))
  {
    CapacityIsFreeSlots(WithOneMore(d));
  }

  /** Free slots of the first `n` devices in iteration order. */
  function SumFree(devices: Devices, order: seq<Pubkey>, n: nat): nat
    requires n <= |order| && forall k :: k in order ==> k in devices
  {
    if n == 0 then 0 else SumFree(devices, order, n - 1) + FreeSlots(devices[order[n - 1]])
  }

  function TotalFree(devices: Devices, order: seq<Pubkey>): nat
    requires forall k :: k in order ==> k in devices
  {
    SumFree(devices, order, |order|)
  }

  lemma {:induction false} SumFreeZero(devices: Devices, order: seq<Pubkey>, n: nat)
    requires n <= |order| && forall k :: k in order ==> k in devices
    ensures SumFree(devices, order, n) == 0 <==> forall i :: 0 <= i < n ==> FreeSlots(devices[order[i]]) == 0
  {
    if n > 0 {
      SumFreeZero(devices, order, n - 1);
    }
  }

  lemma RoomIffTotalFree(devices: Devices, order: seq<Pubkey>)
    requires IsOrderOf(order, devices) && AllTestsRight(devices)
    ensures TotalFree(devices, order) > 0 <==> exists k :: k in devices && HasCapacity(devices[k])
  {
    SumFreeZero(devices, order, |order|);
    assert forall k :: k in devices ==> TestIsRight(devices[k]);
    forall i | 0 <= i < |order| ensures order[i] in devices {
      assert order[i] in order;
    }
  }

  lemma {:induction false} SumFreeAfter(devices: Devices, order: seq<Pubkey>, n: nat, k: Pubkey)
    requires IsOrderOf(order, devices) && AllTestsRight(devices) && n <= |order|
    requires k in devices && HasCapacity(devices[k])
    ensures SumFree(devices[k := WithOneMore(devices[k])], order, n) ==
            SumFree(devices, order, n) - (if k in order[..n] then 1 else 0)
  {
    if n > 0 {
      SumFreeAfter(devices, order, n - 1, k);
      OneMoreTakesOneSlot(devices[k]);
      assert order[..n] == order[..n - 1] + [order[n - 1]];
      assert order[n - 1] !in order[..n - 1];
    }
  }

  // --- creating publishers ---

  /** How many of the first `n` requests come from a known device and are accepted by the ledger. */
  function Served(homes: seq<Pubkey>, accepted: seq<bool>, devices: Devices, n: nat): nat
    requires n <= |homes| == |accepted|
  {
    if n == 0 then 0
    else Served(homes, accepted, devices, n - 1) + if homes[n - 1] in devices && accepted[n - 1] then 1 else 0
  }

  function Min(a: nat, b: nat): nat {
    if a <= b then a else b
  }

  /** `now` is the device `was` after `p` publishers were put on it: they fitted, and every user is
      counted. The publisher counter is 16 bits wide. */
  ghost predicate Took(was: DzDeviceInfo, p: nat, now: DzDeviceInfo) {
    && p <= FreeSlots(was)
    && was.usersCount + p < U16_MODULUS
    && FreeSlots(now) == FreeSlots(was) - p
    && now == was.(usersCount := was.usersCount + p, publishersCount := (was.publishersCount + p) % U16_MODULUS)
  }

  /** The publisher counter is exact if and only if it does not pass its width; it never does on a
      device that limits publishers, or whose publishers are among its users. */
  lemma PublisherCountExactIff(was: DzDeviceInfo, p: nat, now: DzDeviceInfo)
    requires Took(was, p, now)
    ensures now.publishersCount == was.publishersCount + p <==> was.publishersCount + p < U16_MODULUS
    ensures was.maxPublishers > 0 || was.publishersCount <= was.usersCount ==> was.publishersCount + p < U16_MODULUS
  {
  }

  /** Without a publisher limit, a counter that already stands at its maximum wraps to zero. */
  lemma PublisherCountWraps(d: DzDeviceInfo)
    requires d.publishersCount == 65535 && d.maxPublishers == 0
    requires d.usersCount == 0 && d.reservedSeats == 0 && d.maxUsers == 1
    ensures SeatsFit(d) && HasCapacity(d) && WithOneMore(d).publishersCount == 0
  {
    assert AddU16(0, 0) == 0 && AddU16(65535, 1) == 0;
  }

  /** `now` is `devices` after one publisher was put on each of `placed`. */
  ghost predicate AfterPlacing(devices: Devices, placed: seq<Pubkey>, now: Devices) {
    && now.Keys == devices.Keys
    && forall k :: k in devices ==> Took(devices[k], multiset(placed)[k], now[k])
  }

  lemma TakeOneMore(was: DzDeviceInfo, p: nat, now: DzDeviceInfo)
    requires Took(was, p, now) && TestIsRight(now) && HasCapacity(now)
    ensures Took(was, p + 1, WithOneMore(now)) && TestIsRight(WithOneMore(now))
  {
    OneMoreTakesOneSlot(now);
    assert ((was.publishersCount + p) % U16_MODULUS + 1) % U16_MODULUS == (was.publishersCount + p + 1) % U16_MODULUS;
  }

  lemma PlaceOne(devices: Devices, placed: seq<Pubkey>, now: Devices, k: Pubkey)
    requires AfterPlacing(devices, placed, now) && AllTestsRight(now)
    requires k in now && HasCapacity(now[k])
    ensures AfterPlacing(devices, placed + [k], now[k := WithOneMore(now[k])])
    ensures AllTestsRight(now[k := WithOneMore(now[k])])
  {
    var now' := now[k := WithOneMore(now[k])];
    TakeOneMore(devices[k], multiset(placed)[k], now[k]);
    assert multiset(placed + [k]) == multiset(placed) + multiset{k};
    forall j | j in devices ensures Took(devices[j], multiset(placed + [k])[j], now'[j]) {
      if j != k {
        assert Took(devices[j], multiset(placed)[j], now[j]);
      }
    }
  }

  /** Where the run stands after the first `i` requests. */
  ghost predicate Standing(homes: seq<Pubkey>, accepted: seq<bool>, devices: Devices, order: seq<Pubkey>, i: nat,
                           now: Devices, placed: seq<Pubkey>)
    requires i <= |homes| == |accepted|
    requires IsOrderOf(order, devices)
  {
    && AfterPlacing(devices, placed, now)
    && WellKeyed(now) && IsOrderOf(order, now) && AllTestsRight(now)
    && TotalFree(now, order) == TotalFree(devices, order) - |placed|
    && |placed| == Min(Served(homes, accepted, devices, i), TotalFree(devices, order))
  }

  lemma SkipRequest(homes: seq<Pubkey>, accepted: seq<bool>, devices: Devices, order: seq<Pubkey>,
                    i: nat, now: Devices, placed: seq<Pubkey>, metric: Metric)
    requires i < |homes| == |accepted|
    requires IsOrderOf(order, devices) && Standing(homes, accepted, devices, order, i, now, placed)
    requires FindNearest(homes[i], now, order, metric).None? || !accepted[i]
    ensures Standing(homes, accepted, devices, order, i + 1, now, placed)
  {
    NearestIsBest(homes[i], now, order, metric);
    RoomIffTotalFree(now, order);
  }

  lemma TotalFreeAfter(now: Devices, order: seq<Pubkey>, k: Pubkey)
    requires WellKeyed(now) && IsOrderOf(order, now) && AllTestsRight(now)
    requires k in now && HasCapacity(now[k])
    ensures
      var now' := now[k := WithOneMore(now[k])];
      WellKeyed(now') && IsOrderOf(order, now') && TotalFree(now', order) == TotalFree(now, order) - 1
  {
    SumFreeAfter(now, order, |order|, k);
    assert order[..|order|] == order;
  }

  lemma PlaceRequest(homes: seq<Pubkey>, accepted: seq<bool>, devices: Devices, order: seq<Pubkey>,
                     i: nat, now: Devices, placed: seq<Pubkey>, metric: Metric)
    requires i < |homes| == |accepted|
    requires IsOrderOf(order, devices) && Standing(homes, accepted, devices, order, i, now, placed)
    requires FindNearest(homes[i], now, order, metric).Some? && accepted[i]
    ensures
      var k := FindNearest(homes[i], now, order, metric).value.pk;
      k in now && Standing(homes, accepted, devices, order, i + 1, now[k := WithOneMore(now[k])], placed + [k])
  {
    var k := FindNearest(homes[i], now, order, metric).value.pk;
    NearestIsBest(homes[i], now, order, metric);
    RoomIffTotalFree(now, order);
    PlaceOne(devices, placed, now, k);
    TotalFreeAfter(now, order, k);
  }

  /** The devices are the same; and the run stands there if the capacity test is right about every
      device at the start. */
  ghost predicate Stands(homes: seq<Pubkey>, accepted: seq<bool>, devices: Devices, order: seq<Pubkey>, i: nat,
                         now: Devices, placed: seq<Pubkey>)
    requires i <= |homes| == |accepted|
    requires IsOrderOf(order, devices)
  {
    && now.Keys == devices.Keys && WellKeyed(now) && IsOrderOf(order, now)
    && (AllTestsRight(devices) ==> Standing(homes, accepted, devices, order, i, now, placed))
  }

  lemma StandsAtStart(homes: seq<Pubkey>, accepted: seq<bool>, devices: Devices, order: seq<Pubkey>)
    requires |homes| == |accepted| && WellKeyed(devices) && IsOrderOf(order, devices)
    ensures Stands(homes, accepted, devices, order, 0, devices, [])
  {
  }

  lemma Skips(homes: seq<Pubkey>, accepted: seq<bool>, devices: Devices, order: seq<Pubkey>, i: nat, now: Devices,
              placed: seq<Pubkey>, metric: Metric)
    requires i < |homes| == |accepted|
    requires IsOrderOf(order, devices) && Stands(homes, accepted, devices, order, i, now, placed)
    requires FindNearest(homes[i], now, order, metric).None? || !accepted[i]
    ensures Stands(homes, accepted, devices, order, i + 1, now, placed)
  {
    if AllTestsRight(devices) {
      SkipRequest(homes, accepted, devices, order, i, now, placed, metric);
    }
  }

  lemma Places(homes: seq<Pubkey>, accepted: seq<bool>, devices: Devices, order: seq<Pubkey>, i: nat, now: Devices,
               placed: seq<Pubkey>, metric: Metric)
    requires i < |homes| == |accepted|
    requires IsOrderOf(order, devices) && Stands(homes, accepted, devices, order, i, now, placed)
    requires FindNearest(homes[i], now, order, metric).Some? && accepted[i]
    ensures
      var k := FindNearest(homes[i], now, order, metric).value.pk;
      k in now && Stands(homes, accepted, devices, order, i + 1, now[k := WithOneMore(now[k])], placed + [k])
  {
    NearestIsBest(homes[i], now, order, metric);
    if AllTestsRight(devices) {
      PlaceRequest(homes, accepted, devices, order, i, now, placed, metric);
    }
  }

  /** One request: a publisher is put on the device nearest to its home at the time, if there is one
      and the creation goes through. */
  ghost predicate PlacesOne(home: Pubkey, accepted: bool, devices: Devices, order: seq<Pubkey>, metric: Metric,
                            next: Devices)
    requires IsOrderOf(order, devices)
  {
    var found := FindNearest(home, devices, order, metric);
    if found.None? || !accepted then next == devices
    else
      && found.value.pk in devices
      && var d := devices[found.value.pk];
         next == devices[found.value.pk := d.(usersCount := (d.usersCount + 1) % 65536,
                                              publishersCount := (d.publishersCount + 1) % 65536)]
  }

  /** The devices before each of the first `i` requests, and after them. */
  ghost predicate Traced(homes: seq<Pubkey>, accepted: seq<bool>, devices: Devices, order: seq<Pubkey>, metric: Metric,
                         i: nat, now: Devices, trace: seq<Devices>)
    requires i <= |homes| == |accepted|
  {
    && |trace| == i + 1 && trace[0] == devices && trace[i] == now
    && forall j :: 0 <= j < i ==>
         && WellKeyed(trace[j]) && IsOrderOf(order, trace[j])
         && PlacesOne(homes[j], accepted[j], trace[j], order, metric, trace[j + 1])
  }

  lemma TracedMore(homes: seq<Pubkey>, accepted: seq<bool>, devices: Devices, order: seq<Pubkey>, metric: Metric,
                   i: nat, now: Devices, trace: seq<Devices>, next: Devices)
    requires i < |homes| == |accepted| && Traced(homes, accepted, devices, order, metric, i, now, trace)
    requires WellKeyed(now) && IsOrderOf(order, now)
    requires
      var found := FindNearest(homes[i], now, order, metric);
      if found.None? || !accepted[i] then next == now
      else found.value.pk in now && next == now[found.value.pk := WithOneMore(now[found.value.pk])]
    ensures Traced(homes, accepted, devices, order, metric, i + 1, next, trace + [next])
  {
    var trace' := trace + [next];
    forall j | 0 <= j < i + 1
      ensures WellKeyed(trace'[j]) && IsOrderOf(order, trace'[j])
      ensures PlacesOne(homes[j], accepted[j], trace'[j], order, metric, trace'[j + 1])
    {
      if j < i {
        assert trace'[j] == trace[j] && trace'[j + 1] == trace[j + 1];
      }
    }
  }

  /** The i-th request. */
  method PlaceRequested(homes: seq<Pubkey>, accepted: seq<bool>, ghost devices: Devices, order: seq<Pubkey>,
                        metric: Metric, i: nat, now: Devices, ghost placed: seq<Pubkey>, ghost trace: seq<Devices>)
    returns (next: Devices, served: Option<Pubkey>, ghost trace': seq<Devices>)
    requires i < |homes| == |accepted| && IsOrderOf(order, devices)
    requires Stands(homes, accepted, devices, order, i, now, placed)
    requires Traced(homes, accepted, devices, order, metric, i, now, trace)
    ensures Stands(homes, accepted, devices, order, i + 1, next,
                   if served.Some? then placed + [served.value] else placed)
    ensures Traced(homes, accepted, devices, order, metric, i + 1, next, trace')
  {
    var target := FindNearest(homes[i], now, order, metric);
    if target.None? || !accepted[i] {
      Skips(homes, accepted, devices, order, i, now, placed, metric);
      next, served := now, None;
    } else {
      Places(homes, accepted, devices, order, i, now, placed, metric);
      var k := target.value.pk;
      next, served := now[k := WithOneMore(now[k])], Some(k);
    }
    TracedMore(homes, accepted, devices, order, metric, i, now, trace, next);
    trace' := trace + [next];
  }

  /** Create one publisher per request, choosing the device anew each time. `accepted[i]` says
      whether the `i`-th creation goes through once a device is found. If the capacity test is right
      about every device at the start, nobody is turned away while any device has room, no device is
      overfilled, and no user counter overflows. */
  method CreatePublishers(homes: seq<Pubkey>, accepted: seq<bool>, devices: Devices, order: seq<Pubkey>, metric: Metric)
    returns (now: Devices, placed: seq<Pubkey>, skipped: nat, ghost trace: seq<Devices>)
    requires |homes| == |accepted|
    requires WellKeyed(devices) && IsOrderOf(order, devices)
    ensures now.Keys == devices.Keys && |placed| + skipped == |homes|
    ensures Traced(homes, accepted, devices, order, metric, |homes|, now, trace)
    ensures AllTestsRight(devices) ==>
              && AfterPlacing(devices, placed, now)
              && |placed| == Min(Served(homes, accepted, devices, |homes|), TotalFree(devices, order))
  {
    now, placed, skipped, trace := devices, [], 0, [devices];
    StandsAtStart(homes, accepted, devices, order);
    for i := 0 to |homes|
      invariant Stands(homes, accepted, devices, order, i, now, placed)
      invariant |placed| + skipped == i
      invariant Traced(homes, accepted, devices, order, metric, i, now, trace)
    {
      var served;
      now, served, trace := PlaceRequested(homes, accepted, devices, order, metric, i, now, placed, trace);
      if served.Some? {
        placed := placed + [served.value];
      } else {
        skipped := skipped + 1;
      }
    }
  }

  /** Where the test is wrong, a request from that very device is placed on it although it is full. */
  lemma WrongTestOverfills(devices: Devices, order: seq<Pubkey>, metric: Metric, k: Pubkey)
    requires WellKeyed(devices) && IsOrderOf(order, devices)
    requires k in devices && !TestIsRight(devices[k])
    ensures FreeSlots(devices[k]) == 0 && FindNearest(k, devices, order, metric) == Some(devices[k])
  {
    CapacityIsFreeSlots(devices[k]);
    NearestIsBest(k, devices, order, metric);
  }
}
