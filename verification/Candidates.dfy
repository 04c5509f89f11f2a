/** Which validators still need a multicast publisher, best staked first, and what repeating that
    question with a limit comes to. */
module Candidates {
  import opened Basics
  import opened DzLedger
  import opened StableSort

  datatype Validator = Validator(voteAccount: string, stake: real, softwareClient: string)

  datatype Filters = Filters(minStake: Option<real>, maxStake: Option<real>, clients: seq<string>, ips: seq<Ip>)

  /** Everything that stays fixed while candidates are looked for; `lower` folds letter case. */
  datatype Query = Query(
    validators: map<Ip, Validator>,
    group: Pubkey,
    filters: Filters,
    deviceCodes: map<Pubkey, Code>,
    lower: string -> string)

  /** A device's code, or its address when the device is unknown. */
  datatype Label = Coded(code: Code) | Address(pk: Pubkey)

  datatype Candidate = Candidate(
    owner: Pubkey, clientIp: Ip, devicePk: Pubkey, voteAccount: string, stake: real, softwareClient: string,
    deviceLabel: Label)

  predicate Contains(text: string, part: string) {
    part <= text || (text != [] && Contains(text[1..], part))
  }

  predicate ClientMatches(q: Query, softwareClient: string) {
    q.filters.clients == [] || exists c <- q.filters.clients :: Contains(q.lower(softwareClient), q.lower(c))
  }

  predicate IsIbrl(user: DzUser) {
    user.userType == IBRL || user.userType == IBRLWithAllocatedIP
  }

  /** An IBRL user of a validator that passes the filters. */
  predicate Wanted(q: Query, user: DzUser) {
    && IsIbrl(user)
    && user.clientIp in q.validators
    && var v := q.validators[user.clientIp];
       && (q.filters.minStake.Some? ==> q.filters.minStake.value <= v.stake)
       && (q.filters.maxStake.Some? ==> v.stake <= q.filters.maxStake.value)
       && ClientMatches(q, v.softwareClient)
       && (q.filters.ips == [] || user.clientIp in q.filters.ips)
  }

  predicate Publishes(group: Pubkey, user: DzUser) {
    user.userType == Multicast && group in user.publishers
  }

  function PublisherIps(group: Pubkey, users: seq<DzUser>): set<Ip> {
    set u | u in users && Publishes(group, u) :: u.clientIp
  }

  function CandidateFor(q: Query, user: DzUser): Candidate
    requires user.clientIp in q.validators
  {
    var v := q.validators[user.clientIp];
    Candidate(user.owner, user.clientIp, user.devicePk, v.voteAccount, v.stake, v.softwareClient,
              if user.devicePk in q.deviceCodes then Coded(q.deviceCodes[user.devicePk]) else Address(user.devicePk))
  }

  /** The candidates among `users` whose IPs are not `published`, in the order of the users. */
  function Listed(q: Query, published: set<Ip>, users: seq<DzUser>): seq<Candidate> {
    if users == [] then []
    else
      var before, last := Listed(q, published, users[..|users| - 1]), users[|users| - 1];
      if Wanted(q, last) && last.clientIp !in published then before + [CandidateFor(q, last)] else before
  }

  function MoreStake(): (Candidate, Candidate) -> bool {
    (a: Candidate, b: Candidate) => a.stake >= b.stake
  }

  /** All candidates, by stake from high to low, equal stakes in the order of the users. */
  function Ranking(q: Query, users: seq<DzUser>): seq<Candidate> {
    Sort(MoreStake(), Listed(q, PublisherIps(q.group, users), users))
  }

  function Truncated<T>(s: seq<T>, limit: Option<nat>): seq<T> {
    if limit.Some? && limit.value < |s| then s[..limit.value] else s
  }

  method FindCandidates(users: seq<DzUser>, q: Query, limit: Option<nat>) returns (candidates: seq<Candidate>)
    ensures candidates == Truncated(Ranking(q, users), limit)
    ensures limit.None? ==> candidates == Ranking(q, users)
    ensures limit.Some? ==> candidates <= Ranking(q, users)
    ensures limit.Some? ==>
              |candidates| == if limit.value <= |Ranking(q, users)| then limit.value else |Ranking(q, users)|
  {
    var publisherIps := PublisherIps(q.group, users);
    candidates := [];
    for i := 0 to |users|
      invariant candidates == Listed(q, publisherIps, users[..i])
    {
      var user := users[i];
      assert users[..i + 1][..i] == users[..i];
      if !IsIbrl(user) {
        continue;
      }
      if user.clientIp in publisherIps || user.clientIp !in q.validators {
        continue;
      }
      var v := q.validators[user.clientIp];
      if q.filters.minStake.Some? && v.stake < q.filters.minStake.value {
        continue;
      }
      if q.filters.maxStake.Some? && v.stake > q.filters.maxStake.value {
        continue;
      }
      if q.filters.clients != [] && !ClientMatches(q, v.softwareClient) {
        continue;
      }
      if q.filters.ips != [] && user.clientIp !in q.filters.ips {
        continue;
      }
      candidates := candidates + [CandidateFor(q, user)];
    }
    assert users[..|users|] == users;
    candidates := Sort(MoreStake(), candidates);
    if limit.Some? && limit.value < |candidates| {
      candidates := candidates[..limit.value];
    }
  }

  // --- what the ranking holds ---

  lemma {:induction false} ListedMembers(q: Query, published: set<Ip>, users: seq<DzUser>)
    ensures forall c :: c in Listed(q, published, users) <==>
                        exists u <- users :: Wanted(q, u) && u.clientIp !in published && c == CandidateFor(q, u)
  {
    if users != [] {
      ListedMembers(q, published, users[..|users| - 1]);
      assert users == users[..|users| - 1] + [users[|users| - 1]];
    }
  }

  ghost predicate OccursAt(text: string, part: string, i: nat) {
    i + |part| <= |text| && text[i..i + |part|] == part
  }

  lemma {:induction false} ContainsIff(text: string, part: string)
    ensures Contains(text, part) <==> exists i :: OccursAt(text, part, i)
  {
    if part <= text {
      assert OccursAt(text, part, 0);
    } else if text != [] {
      ContainsIff(text[1..], part);
      if i: nat :| OccursAt(text[1..], part, i) {
        assert text[i + 1..i + 1 + |part|] == text[1..][i..i + |part|];
        assert OccursAt(text, part, i + 1);
      }
      if i: nat :| OccursAt(text, part, i) {
        assert i > 0;
        assert text[1..][i - 1..i - 1 + |part|] == text[i..i + |part|];
        assert OccursAt(text[1..], part, i - 1);
      }
    }
  }

  /** The user is an IBRL user of a validator within the stake bounds, whose client software matches
      one of the patterns if there are any, at one of the IPs if there are any, and no multicast user
      at its IP publishes to the group. */
  ghost predicate NeedsPublisher(q: Query, users: seq<DzUser>, u: DzUser) {
    && (u.userType == IBRL || u.userType == IBRLWithAllocatedIP)
    && u.clientIp in q.validators
    && var v := q.validators[u.clientIp];
       && (q.filters.minStake.Some? ==> v.stake >= q.filters.minStake.value)
       && (q.filters.maxStake.Some? ==> v.stake <= q.filters.maxStake.value)
       && (q.filters.clients != [] ==>
             exists c <- q.filters.clients :: exists i :: OccursAt(q.lower(v.softwareClient), q.lower(c), i))
       && (q.filters.ips != [] ==> u.clientIp in q.filters.ips)
       && forall p <- users :: p.clientIp == u.clientIp && p.userType == Multicast ==> q.group !in p.publishers
  }

  lemma NeedsIff(q: Query, users: seq<DzUser>, u: DzUser)
    ensures NeedsPublisher(q, users, u) <==> Wanted(q, u) && u.clientIp !in PublisherIps(q.group, users)
  {
    if u.clientIp in q.validators {
      var v := q.validators[u.clientIp];
      forall c | c in q.filters.clients
        ensures Contains(q.lower(v.softwareClient), q.lower(c))
                <==> exists i :: OccursAt(q.lower(v.softwareClient), q.lower(c), i)
      {
        ContainsIff(q.lower(v.softwareClient), q.lower(c));
      }
    }
  }

  /** Exactly the users that need a publisher, in descending order of stake. */
  lemma RankingHolds(q: Query, users: seq<DzUser>)
    ensures forall c :: c in Ranking(q, users) <==>
                        exists u <- users :: NeedsPublisher(q, users, u) && c == CandidateFor(q, u)
    ensures forall i, j :: 0 <= i < j < |Ranking(q, users)| ==> Ranking(q, users)[i].stake >= Ranking(q, users)[j].stake
    ensures IsStableSortOf(MoreStake(), Listed(q, PublisherIps(q.group, users), users), Ranking(q, users))
  {
    var published := PublisherIps(q.group, users);
    var listed := Listed(q, published, users);
    ListedMembers(q, published, users);
    SortOrders(MoreStake(), listed);
    StableSortUnique(MoreStake(), listed, Ranking(q, users));
    forall u ensures NeedsPublisher(q, users, u) <==> Wanted(q, u) && u.clientIp !in published {
      NeedsIff(q, users, u);
    }
    forall i, j | 0 <= i < j < |Ranking(q, users)| ensures Ranking(q, users)[i].stake >= Ranking(q, users)[j].stake {
      assert MoreStake()(Ranking(q, users)[i], Ranking(q, users)[j]);
    }
  }

  /** The candidates of stake `s` among the first `n` users, in the order of the users. */
  ghost function OfStake(q: Query, users: seq<DzUser>, s: real, n: nat): seq<Candidate>
    requires n <= |users|
  {
    if n == 0 then []
    else
      var before, u := OfStake(q, users, s, n - 1), users[n - 1];
      if !NeedsPublisher(q, users, u) || q.validators[u.clientIp].stake != s then before
      else
        var v := q.validators[u.clientIp];
        before + [Candidate(u.owner, u.clientIp, u.devicePk, v.voteAccount, v.stake, v.softwareClient,
                            if u.devicePk in q.deviceCodes then Coded(q.deviceCodes[u.devicePk])
                            else Address(u.devicePk))]
  }

  function HasStake(s: real): Candidate -> bool {
    (c: Candidate) => c.stake == s
  }

  lemma {:induction false} ListedOfStake(q: Query, users: seq<DzUser>, s: real, n: nat)
    requires n <= |users|
    ensures Filter(HasStake(s), Listed(q, PublisherIps(q.group, users), users[..n])) == OfStake(q, users, s, n)
  {
    var published := PublisherIps(q.group, users);
    if n > 0 {
      ListedOfStake(q, users, s, n - 1);
      var init, last := users[..n - 1], users[n - 1];
      assert users[..n][..n - 1] == init;
      NeedsIff(q, users, last);
      if NeedsPublisher(q, users, last) {
        FilterSnoc(HasStake(s), Listed(q, published, init), CandidateFor(q, last));
      }
    }
  }

  /** Stake by stake, the ranking is the list of the users that need a publisher, in their order. */
  lemma RankingPerStake(q: Query, users: seq<DzUser>, s: real)
    ensures Filter(HasStake(s), Ranking(q, users)) == OfStake(q, users, s, |users|)
  {
    var listed := Listed(q, PublisherIps(q.group, users), users);
    var x := Candidate(System, UNSPECIFIED, System, "", s, "", Address(System));
    SortIsStable(MoreStake(), listed, x);
    FilterSame(Ties(MoreStake(), x), HasStake(s), listed);
    FilterSame(Ties(MoreStake(), x), HasStake(s), Ranking(q, users));
    ListedOfStake(q, users, s, |users|);
    assert users[..|users|] == users;
  }

  // --- rounds ---

  function Ips(candidates: seq<Candidate>): set<Ip> {
    set c | c in candidates :: c.clientIp
  }

  function Without(ips: set<Ip>): Candidate -> bool {
    (c: Candidate) => c.clientIp !in ips
  }

  /** `made` creates, for a candidate, a multicast user that publishes to the group. */
  ghost predicate MakesPublishers(made: Candidate -> DzUser, group: Pubkey) {
    forall c :: made(c).clientIp == c.clientIp && Publishes(group, made(c))
  }

  function MadeFor(made: Candidate -> DzUser, candidates: seq<Candidate>): seq<DzUser> {
    seq(|candidates|, i requires 0 <= i < |candidates| => made(candidates[i]))
  }

  lemma {:induction false} ListedLess(q: Query, published: set<Ip>, more: set<Ip>, users: seq<DzUser>)
    ensures Listed(q, published + more, users) == Filter(Without(more), Listed(q, published, users))
  {
    if users != [] {
      var init, last := users[..|users| - 1], users[|users| - 1];
      ListedLess(q, published, more, init);
      if Wanted(q, last) && last.clientIp !in published {
        FilterSnoc(Without(more), Listed(q, published, init), CandidateFor(q, last));
      }
    }
  }

  lemma {:induction false} ListedIgnores(q: Query, published: set<Ip>, users: seq<DzUser>, others: seq<DzUser>)
    requires forall u :: u in others ==> u.userType == Multicast
    ensures Listed(q, published, users + others) == Listed(q, published, users)
  {
    if others == [] {
      assert users + others == users;
    } else {
      var init := others[..|others| - 1];
      ListedIgnores(q, published, users, init);
      assert (users + others)[..|users + others| - 1] == users + init;
    }
  }

  /** Creating publishers for some candidates takes their IPs out of the ranking, and changes
      nothing else. */
  lemma RankingAfter(q: Query, users: seq<DzUser>, made: Candidate -> DzUser, served: seq<Candidate>)
    requires MakesPublishers(made, q.group)
    ensures Ranking(q, users + MadeFor(made, served)) == Filter(Without(Ips(served)), Ranking(q, users))
  {
    var others := MadeFor(made, served);
    var published := PublisherIps(q.group, users);
    assert PublisherIps(q.group, users + others) == published + Ips(served) by {
      forall c | c in served ensures c.clientIp in PublisherIps(q.group, users + others) {
        var i :| 0 <= i < |served| && served[i] == c;
        assert others[i] in users + others;
      }
    }
    ListedIgnores(q, published + Ips(served), users, others);
    ListedLess(q, published, Ips(served), users);
    SortCommutesWithFilter(MoreStake(), Without(Ips(served)), Listed(q, published, users));
  }

  /** Serve the first `k`, drop everyone who shares an IP with them, and go on. */
  function Greedy(ranking: seq<Candidate>, k: nat): seq<Candidate>
    requires k >= 1
    decreases |ranking|
  {
    if |ranking| <= k then ranking
    else
      FilterMembers(Without(Ips(ranking[..k])), ranking[k..]);
      ranking[..k] + Greedy(Filter(Without(Ips(ranking[..k])), ranking[k..]), k)
  }

  /** A round asks for `k` candidates and creates a publisher for each; rounds go on until nobody
      is left. The result is everyone served, in order. */
  ghost function Rounds(q: Query, users: seq<DzUser>, made: Candidate -> DzUser, k: nat): seq<Candidate>
    requires k >= 1 && MakesPublishers(made, q.group)
    decreases |Ranking(q, users)|
  {
    var served := Truncated(Ranking(q, users), Some(k));
    if served == [] then []
    else
      RoundShrinks(q, users, made, k);
      served + Rounds(q, users + MadeFor(made, served), made, k)
  }

  lemma {:induction false} FilterNone<T>(p: T -> bool, s: seq<T>)
    requires forall x :: x in s ==> !p(x)
    ensures Filter(p, s) == []
  {
    if s != [] {
      FilterNone(p, s[1..]);
    }
  }

  lemma FilterServed(ranking: seq<Candidate>, k: nat)
    requires k <= |ranking|
    ensures Filter(Without(Ips(ranking[..k])), ranking) == Filter(Without(Ips(ranking[..k])), ranking[k..])
  {
    var p := Without(Ips(ranking[..k]));
    assert ranking == ranking[..k] + ranking[k..];
    FilterAppend(p, ranking[..k], ranking[k..]);
    FilterNone(p, ranking[..k]);
  }

  lemma RoundShrinks(q: Query, users: seq<DzUser>, made: Candidate -> DzUser, k: nat)
    requires k >= 1 && MakesPublishers(made, q.group)
    ensures
      var ranking := Ranking(q, users);
      var served := Truncated(ranking, Some(k));
      var after := Ranking(q, users + MadeFor(made, served));
      && after == Filter(Without(Ips(served)), ranking[|served|..])
      && |after| <= |ranking| - |served|
  {
    var ranking := Ranking(q, users);
    var served := Truncated(ranking, Some(k));
    RankingAfter(q, users, made, served);
    assert served == ranking[..|served|];
    FilterServed(ranking, |served|);
    FilterMembers(Without(Ips(served)), ranking[|served|..]);
  }

  /** Rounds of `k` serve the first ranking greedily. */
  lemma {:induction false} RoundsAreGreedy(q: Query, users: seq<DzUser>, made: Candidate -> DzUser, k: nat)
    requires k >= 1 && MakesPublishers(made, q.group)
    ensures Rounds(q, users, made, k) == Greedy(Ranking(q, users), k)
    decreases |Ranking(q, users)|
  {
    var ranking := Ranking(q, users);
    var served := Truncated(ranking, Some(k));
    if served != [] {
      RoundShrinks(q, users, made, k);
      RoundsAreGreedy(q, users + MadeFor(made, served), made, k);
    }
  }

  /** Which block of `k` the position `i` falls into. */
  function Block(i: nat, k: nat): nat
    requires k >= 1
  {
    if i < k then 0 else 1 + Block(i - k, k)
  }

  /** Candidates that share an IP are ranked within one block of `k`. */
  ghost predicate SharedIpsInOneBlock(ranking: seq<Candidate>, k: nat)
    requires k >= 1
  {
    forall i, j :: 0 <= i < j < |ranking| && ranking[i].clientIp == ranking[j].clientIp ==> Block(i, k) == Block(j, k)
  }

  ghost predicate NoneServedAgain(ranking: seq<Candidate>, k: nat)
    requires k <= |ranking|
  {
    forall c :: c in ranking[k..] ==> c.clientIp !in Ips(ranking[..k])
  }

  lemma BlocksSplit(ranking: seq<Candidate>, k: nat)
    requires 1 <= k <= |ranking| && SharedIpsInOneBlock(ranking, k)
    ensures SharedIpsInOneBlock(ranking[k..], k) && NoneServedAgain(ranking, k)
  {
    var rest := ranking[k..];
    forall i, j | 0 <= i < j < |rest| && rest[i].clientIp == rest[j].clientIp ensures Block(i, k) == Block(j, k) {
      assert ranking[i + k] == rest[i] && ranking[j + k] == rest[j];
      assert Block(i + k, k) == Block(j + k, k);
    }
    forall i, j | 0 <= i < k <= j < |ranking| ensures ranking[i].clientIp != ranking[j].clientIp {
      assert Block(i, k) == 0 && Block(j, k) >= 1;
    }
    forall c | c in rest ensures c.clientIp !in Ips(ranking[..k]) {
      var j :| 0 <= j < |rest| && rest[j] == c;
      assert ranking[j + k] == c;
    }
  }

  lemma BlocksJoin(ranking: seq<Candidate>, k: nat)
    requires 1 <= k <= |ranking|
    requires SharedIpsInOneBlock(ranking[k..], k) && NoneServedAgain(ranking, k)
    ensures SharedIpsInOneBlock(ranking, k)
  {
    var rest := ranking[k..];
    forall i, j | 0 <= i < k <= j < |ranking| ensures ranking[i].clientIp != ranking[j].clientIp {
      assert ranking[..k][i] == ranking[i] && rest[j - k] == ranking[j];
    }
    forall i, j | 0 <= i < j < |ranking| && ranking[i].clientIp == ranking[j].clientIp
      ensures Block(i, k) == Block(j, k) {
      if i >= k {
        assert rest[i - k] == ranking[i] && rest[j - k] == ranking[j];
        assert Block(i - k, k) == Block(j - k, k);
      }
    }
  }

  lemma {:induction false} FilterKeepsAllIff<T>(p: T -> bool, s: seq<T>)
    ensures |Filter(p, s)| == |s| <==> forall x :: x in s ==> p(x)
    ensures |Filter(p, s)| == |s| ==> Filter(p, s) == s
  {
    if s != [] {
      FilterKeepsAllIff(p, s[1..]);
      FilterMembers(p, s[1..]);
      assert s == [s[0]] + s[1..];
    }
  }

  lemma {:induction false} GreedyServesAllIff(ranking: seq<Candidate>, k: nat)
    requires k >= 1
    ensures |Greedy(ranking, k)| <= |ranking|
    ensures Greedy(ranking, k) == ranking <==> SharedIpsInOneBlock(ranking, k)
    decreases |ranking|
  {
    if |ranking| > k {
      var p, rest := Without(Ips(ranking[..k])), ranking[k..];
      var left := Filter(p, rest);
      FilterMembers(p, rest);
      FilterKeepsAllIff(p, rest);
      GreedyServesAllIff(left, k);
      GreedyUnfolds(ranking, k);
      if SharedIpsInOneBlock(ranking, k) {
        BlocksSplit(ranking, k);
      } else if left == rest && SharedIpsInOneBlock(rest, k) {
        BlocksJoin(ranking, k);
      }
    }
  }

  lemma GreedyUnfolds(ranking: seq<Candidate>, k: nat)
    requires 1 <= k < |ranking|
    ensures
      var rest := ranking[k..];
      var after := Greedy(Filter(Without(Ips(ranking[..k])), rest), k);
      && |Greedy(ranking, k)| == k + |after|
      && (Greedy(ranking, k) == ranking <==> after == rest)
  {
    var after := Greedy(Filter(Without(Ips(ranking[..k])), ranking[k..]), k);
    assert (ranking[..k] + after)[k..] == after;
    assert ranking == ranking[..k] + ranking[k..];
  }

  lemma IpsJoin(first: seq<Candidate>, rest: seq<Candidate>, left: seq<Candidate>,
                served: seq<Candidate>)
    requires forall c :: c in left <==> c in rest && c.clientIp !in Ips(first)
    requires Ips(served) == Ips(left)
    ensures Ips(first + served) == Ips(first + rest)
  {
    forall ip ensures ip in Ips(first + served) <==> ip in Ips(first) || ip in Ips(served) {
    }
    forall ip ensures ip in Ips(first + rest) <==> ip in Ips(first) || ip in Ips(rest) {
    }
    forall c | c in rest ensures c.clientIp in Ips(first) || c.clientIp in Ips(left) {
    }
  }

  lemma {:induction false} GreedyServesAllIps(ranking: seq<Candidate>, k: nat)
    requires k >= 1
    ensures Ips(Greedy(ranking, k)) == Ips(ranking)
    decreases |ranking|
  {
    if |ranking| > k {
      var p, rest := Without(Ips(ranking[..k])), ranking[k..];
      FilterMembers(p, rest);
      GreedyServesAllIps(Filter(p, rest), k);
      IpsJoin(ranking[..k], rest, Filter(p, rest), Greedy(Filter(p, rest), k));
      assert ranking == ranking[..k] + rest;
    }
  }

  /** Asking for `k` at a time, with a publisher created for everyone returned, always ends with
      nobody left; every IP in the ranking is served. What is served is the unlimited ranking
      itself if and only if candidates sharing an IP never straddle two blocks of `k`. */
  lemma RoundsEqualRankingIff(q: Query, users: seq<DzUser>, made: Candidate -> DzUser, k: nat)
    requires k >= 1 && MakesPublishers(made, q.group)
    ensures Rounds(q, users, made, k) == Ranking(q, users) <==> SharedIpsInOneBlock(Ranking(q, users), k)
    ensures Ips(Rounds(q, users, made, k)) == Ips(Ranking(q, users))
  {
    RoundsAreGreedy(q, users, made, k);
    GreedyServesAllIff(Ranking(q, users), k);
    GreedyServesAllIps(Ranking(q, users), k);
  }

  /** The smallest input that tells them apart: two wanted users at one client IP, one of each IBRL
      type. One at a time, only the first of them is served. */
  lemma SharedIpIsServedOnce(q: Query, ibrl: DzUser, withIp: DzUser, made: Candidate -> DzUser)
    requires MakesPublishers(made, q.group)
    requires ibrl.userType == IBRL && withIp.userType == IBRLWithAllocatedIP && ibrl.clientIp == withIp.clientIp
    requires Wanted(q, ibrl) && Wanted(q, withIp)
    ensures |Ranking(q, [ibrl, withIp])| == 2
    ensures Rounds(q, [ibrl, withIp], made, 1) == Ranking(q, [ibrl, withIp])[..1]
    ensures Rounds(q, [ibrl, withIp], made, 1) != Ranking(q, [ibrl, withIp])
  {
    var users := [ibrl, withIp];
    assert PublisherIps(q.group, users) == {};
    ListedTwo(q, ibrl, withIp);
    var listed := Listed(q, {}, users);
    SortOrders(MoreStake(), listed);
    PairOfOneIp(listed, Ranking(q, users));
    RoundsAreGreedy(q, users, made, 1);
    GreedyOfPair(Ranking(q, users));
  }

  lemma ListedTwo(q: Query, u: DzUser, v: DzUser)
    requires Wanted(q, u) && Wanted(q, v)
    ensures Listed(q, {}, [u, v]) == [CandidateFor(q, u), CandidateFor(q, v)]
  {
    assert [u][..0] == [];
    assert Listed(q, {}, [u]) == [CandidateFor(q, u)];
    assert [u, v][..1] == [u];
    assert Listed(q, {}, [u, v]) == Listed(q, {}, [u]) + [CandidateFor(q, v)];
  }

  lemma PairOfOneIp(listed: seq<Candidate>, ranking: seq<Candidate>)
    requires |listed| == |ranking| == 2 && listed[0].clientIp == listed[1].clientIp
    requires forall c :: c in ranking <==> c in listed
    ensures ranking[0].clientIp == ranking[1].clientIp
  {
    assert ranking[0] in listed && ranking[1] in listed;
  }

  lemma GreedyOfPair(ranking: seq<Candidate>)
    requires |ranking| == 2 && ranking[0].clientIp == ranking[1].clientIp
    ensures Greedy(ranking, 1) == ranking[..1] && Greedy(ranking, 1) != ranking
  {
    var p := Without(Ips(ranking[..1]));
    assert ranking[..1] == [ranking[0]] && ranking[1..] == [ranking[1]];
    assert ranking[0] in ranking[..1] && ranking[0].clientIp in Ips(ranking[..1]);
    FilterNone(p, ranking[1..]);
    assert ranking[..1] + [] == ranking[..1];
  }

  /** With distinct client IPs among the IBRL users, rounds of any size give the one ranking. */
  lemma DistinctIpsRounds(q: Query, users: seq<DzUser>, made: Candidate -> DzUser, k: nat)
    requires k >= 1 && MakesPublishers(made, q.group)
    requires forall i, j :: 0 <= i < j < |users| && IsIbrl(users[i]) && IsIbrl(users[j]) ==>
               users[i].clientIp != users[j].clientIp
    ensures Rounds(q, users, made, k) == Ranking(q, users)
  {
    var published := PublisherIps(q.group, users);
    ListedDistinct(q, published, users);
    var listed := Listed(q, published, users);
    SortOrders(MoreStake(), listed);
    DistinctIpsArePermuted(listed, Ranking(q, users));
    RoundsEqualRankingIff(q, users, made, k);
  }

  ghost predicate DistinctIps(s: seq<Candidate>) {
    forall i, j :: 0 <= i < j < |s| ==> s[i].clientIp != s[j].clientIp
  }

  lemma {:induction false} ListedDistinct(q: Query, published: set<Ip>, users: seq<DzUser>)
    requires forall i, j :: 0 <= i < j < |users| && IsIbrl(users[i]) && IsIbrl(users[j]) ==>
               users[i].clientIp != users[j].clientIp
    ensures DistinctIps(Listed(q, published, users))
  {
    if users != [] {
      var init, last := users[..|users| - 1], users[|users| - 1];
      ListedDistinct(q, published, init);
      ListedMembers(q, published, init);
      var before := Listed(q, published, init);
      if Wanted(q, last) {
        forall i | 0 <= i < |before| ensures before[i].clientIp != last.clientIp {
          assert before[i] in before;
          var u :| u in init && Wanted(q, u) && before[i] == CandidateFor(q, u);
          var n :| 0 <= n < |init| && init[n] == u;
          assert users[n] == u && users[|users| - 1] == last;
        }
      }
    }
  }

  lemma DistinctIpsArePermuted(s: seq<Candidate>, t: seq<Candidate>)
    requires DistinctIps(s) && multiset(s) == multiset(t)
    ensures DistinctIps(t)
  {
    forall i, j | 0 <= i < j < |t| ensures t[i].clientIp != t[j].clientIp {
      if t[i].clientIp == t[j].clientIp {
        assert t[i] in multiset(s) && t[j] in multiset(s);
        var a :| 0 <= a < |s| && s[a] == t[i];
        var b :| 0 <= b < |s| && s[b] == t[j];
        assert t[i] == t[j];
        Twice(t, i, j);
        AtMostOnce(s, t[i]);
      }
    }
  }

  lemma Twice<T>(t: seq<T>, i: nat, j: nat)
    requires i < j < |t| && t[i] == t[j]
    ensures multiset(t)[t[i]] >= 2
  {
    assert t == t[..i] + [t[i]] + t[i + 1..j] + [t[j]] + t[j + 1..];
  }

  lemma {:induction false} AtMostOnce(s: seq<Candidate>, c: Candidate)
    requires DistinctIps(s)
    ensures multiset(s)[c] <= 1
  {
    if s != [] {
      AtMostOnce(s[1..], c);
      assert s == [s[0]] + s[1..];
      if s[0] == c {
        assert c !in s[1..];
      }
    }
  }
}
