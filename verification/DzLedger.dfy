/** What the sentinel reads from the ledger: users, devices, and the latency map folded from
    telemetry accounts. */
module DzLedger {
  import opened Basics
  import opened Onchain

  datatype DzUser = DzUser(
    owner: Pubkey,
    clientIp: Ip,
    devicePk: Pubkey,
    userType: UserType,
    publishers: seq<Pubkey>,
    tunnelEndpoint: Ip)

  datatype DzDeviceInfo = DzDeviceInfo(
    pk: Pubkey,
    code: Code,
    usersCount: U16,
    maxUsers: U16,
    reservedSeats: U16,
    publishersCount: U16,
    maxPublishers: U16)

  // --- telemetry ---

  type Pair = (Pubkey, Pubkey)

  /** Round-trip samples between two devices, in microseconds; zero means a lost packet. */
  datatype LatencySamples = LatencySamples(origin: Pubkey, target: Pubkey, samples: seq<nat>)

  type LatencyMap = map<Pair, nat>

  /** Some telemetry account has the non-zero sample `us` for `pair`. */
  ghost predicate Sampled(accounts: seq<Option<LatencySamples>>, pair: Pair, us: nat) {
    us > 0 && exists a <- accounts :: a.Some? && (a.value.origin, a.value.target) == pair && us in a.value.samples
  }

  ghost predicate IsLeastSample(accounts: seq<Option<LatencySamples>>, pair: Pair, us: nat) {
    Sampled(accounts, pair, us) && forall v :: Sampled(accounts, pair, v) ==> us <= v
  }

  /** The least non-zero sample of every pair that has one, and nothing else. */
  ghost predicate IsMinimumMap(accounts: seq<Option<LatencySamples>>, latencies: LatencyMap) {
    && (forall pair :: pair in latencies ==> IsLeastSample(accounts, pair, latencies[pair]))
    && (forall pair, us :: Sampled(accounts, pair, us) ==> pair in latencies)
  }

  function MinNonZero(samples: seq<nat>): (least: Option<nat>)
    ensures least.None? ==> forall s <- samples :: s == 0
    ensures least.Some? ==> least.value in samples && least.value > 0
    ensures least.Some? ==> forall s <- samples :: s > 0 ==> least.value <= s
  {
    if samples == [] then None
    else
      var rest := MinNonZero(samples[1..]);
      assert samples == [samples[0]] + samples[1..];
      if samples[0] == 0 then rest
      else if rest.Some? && rest.value < samples[0] then rest
      else Some(samples[0])
  }

  lemma SampledAppend(accounts: seq<Option<LatencySamples>>, account: Option<LatencySamples>,
                      pair: Pair, us: nat)
    ensures Sampled(accounts + [account], pair, us) <==>
            || Sampled(accounts, pair, us)
            || (us > 0 && account.Some? && (account.value.origin, account.value.target) == pair
                && us in account.value.samples)
  {
    if Sampled(accounts, pair, us) {
      var a :| a in accounts && a.Some? && (a.value.origin, a.value.target) == pair && us in a.value.samples;
      assert a in accounts + [account];
    }
    assert account in accounts + [account];
  }

  /** Fold one account into the map: keep the smaller of the old entry and the account's
      least non-zero sample. */
  method FoldAccount(latencies: LatencyMap, account: Option<LatencySamples>,
                     ghost accounts: seq<Option<LatencySamples>>)
    returns (latencies': LatencyMap)
    requires IsMinimumMap(accounts, latencies)
    ensures IsMinimumMap(accounts + [account], latencies')
  {
    latencies' := latencies;
    forall pair, us ensures Sampled(accounts + [account], pair, us) <==>
              || Sampled(accounts, pair, us)
              || (us > 0 && account.Some? && (account.value.origin, account.value.target) == pair
                  && us in account.value.samples)
    {
      SampledAppend(accounts, account, pair, us);
    }
    if account.None? || account.value.samples == [] {
      return;
    }
    var pair := (account.value.origin, account.value.target);
    var least := MinNonZero(account.value.samples);
    if least.None? {
      return;
    }
    if pair in latencies {
      if least.value < latencies[pair] {
        latencies' := latencies[pair := least.value];
      }
    } else {
      latencies' := latencies[pair := least.value];
    }
  }

  /** The latency map of the current epoch's telemetry accounts; `None` is an account that does
      not decode. */
  method FetchDeviceLatencyMap(accounts: seq<Option<LatencySamples>>) returns (latencies: LatencyMap)
    ensures IsMinimumMap(accounts, latencies)
  {
    latencies := map[];
    for i := 0 to |accounts|
      invariant IsMinimumMap(accounts[..i], latencies)
    {
      latencies := FoldAccount(latencies, accounts[i], accounts[..i]);
      assert accounts[..i + 1] == accounts[..i] + [accounts[i]];
    }
    assert accounts[..|accounts|] == accounts;
  }

  /** The accounts determine the map, in whatever order they are read. */
  lemma AccountOrderIrrelevant(a: seq<Option<LatencySamples>>, b: seq<Option<LatencySamples>>,
                               m: LatencyMap, m': LatencyMap)
    requires multiset(a) == multiset(b)
    requires IsMinimumMap(a, m) && IsMinimumMap(b, m')
    ensures m == m'
  {
    forall pair, us ensures Sampled(a, pair, us) <==> Sampled(b, pair, us) {
      assert forall x :: x in a <==> x in multiset(a);
      assert forall x :: x in b <==> x in multiset(b);
    }
    forall pair ensures pair in m <==> pair in m' {
      assert pair in m ==> Sampled(b, pair, m[pair]);
      assert pair in m' ==> Sampled(a, pair, m'[pair]);
    }
    forall pair | pair in m ensures m[pair] == m'[pair] {
      assert Sampled(a, pair, m[pair]) && Sampled(b, pair, m'[pair]);
    }
  }
}
